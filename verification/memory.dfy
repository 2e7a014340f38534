/** The memory store that persists schemas under a section name. */
module Memories {
  import opened Wrappers
  import opened Schemas

  /** One call made on the store. */
  datatype Access = Load(section: string) | Save(section: string, schema: Schema)

  class Memory {
    var sections: map<string, Schema>
    var log: seq<Access>

    constructor (sections: map<string, Schema>)
      ensures this.sections == sections && log == []
    {
      this.sections := sections;
      log := [];
    }

    /** `loadData($section)`: the stored schema, or `None` (null) when nothing is stored. */
    method LoadData(section: string) returns (data: Option<Schema>)
      modifies this
      ensures sections == old(sections)
      ensures log == old(log) + [Load(section)]
      ensures data.Some? <==> section in sections
      ensures data.Some? ==> data.value == sections[section]
    {
      data := if section in sections then Some(sections[section]) else None;
      log := log + [Load(section)];
    }

    /** `saveData($section, $data)`. */
    method SaveData(section: string, schema: Schema)
      modifies this
      ensures sections == old(sections)[section := schema]
      ensures log == old(log) + [Save(section, schema)]
    {
      sections := sections[section := schema];
      log := log + [Save(section, schema)];
    }
  }
}
