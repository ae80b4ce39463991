/**
  The shape of a backend table (`code_dict` in a `languages` module): one entry per
  intent, holding the entity names to collect and the template to fill, plus the three
  fixed fragments the pipeline emits verbatim.
*/
module Backend {
  import opened Format

  datatype Entry = Entry(entities: seq<string>, code: string)

  datatype CodeDict = CodeDict(
    intents: map<string, Entry>,
    endBlock: string,     // 'end_block': closes one block
    defaultCode: string,  // 'default_code': the first fragment of every output
    beginMain: string     // 'begin_main': emitted for the program-entry line
  )

  /** The template parses, and its fields are exactly the listed entities. */
  predicate WellFormedEntry(e: Entry) {
    Parse(e.code).Some? && Holes(Parse(e.code).value) == set n | n in e.entities
  }

  /** Every entry of the table is well-formed. */
  predicate WellFormedDict(dict: CodeDict) {
    forall i :: i in dict.intents ==> WellFormedEntry(dict.intents[i])
  }

  /** Every listed entity has a value. */
  predicate Supplied(e: Entry, kw: map<string, string>) {
    forall n :: n in e.entities ==> n in kw
  }

  /**
    For a well-formed entry, filling the template fails exactly when a listed entity has
    no value, and the failure names such an entity.
  */
  lemma FillsIffSupplied(e: Entry, kw: map<string, string>)
    requires WellFormedEntry(e)
    ensures FormatMap(e.code, kw).Ok? <==> Supplied(e, kw)
    ensures FormatMap(e.code, kw).Err? ==>
              FormatMap(e.code, kw).error.MissingKey? &&
              FormatMap(e.code, kw).error.name in e.entities &&
              FormatMap(e.code, kw).error.name !in kw
  {
    RenderOkIff(Parse(e.code).value, kw);
  }
}
