/**
  `generate_code`: look the classified intent up in the backend table, collect the values
  of the entities its entry lists, and fill the entry's template with them.
*/
module Generation {
  import opened Wrappers
  import opened Format
  import opened Backend

  /** One entity the classifier found: `{'entity': ..., 'value': ...}`. */
  datatype EntityValue = EntityValue(entity: string, value: string)

  /** What `interpreter.parse` returns, reduced to the intent name and the entities. */
  datatype Interpretation = Interpretation(intent: string, entities: seq<EntityValue>)

  datatype GenError =
    | UnknownIntent(intent: string)    // `code_dict[intent]` raises KeyError
    | FormatFailed(err: FormatError)   // `format_map` raises

  // ---------------------------------------------------------------------------
  // Collecting entity values

  /** The inner loop for one entity name: every match overwrites the value before it. */
  function CollectName(kw: map<string, string>, name: string, found: seq<EntityValue>): map<string, string>
    decreases |found|
  {
    if found == [] then kw
    else
      var before := CollectName(kw, name, found[..|found| - 1]);
      var e := found[|found| - 1];
      if e.entity == name then before[name := e.value] else before
  }

  /** The outer loop over the entity names the entry lists. */
  function Collect(kw: map<string, string>, names: seq<string>, found: seq<EntityValue>): map<string, string>
    decreases |names|
  {
    if names == [] then kw
    else CollectName(Collect(kw, names[..|names| - 1], found), names[|names| - 1], found)
  }

  /** The `kwargs` dict `generate_code` builds. */
  function Kwargs(names: seq<string>, found: seq<EntityValue>): map<string, string> {
    Collect(map[], names, found)
  }

  /** The classifier found entity `n`. */
  predicate Occurs(n: string, found: seq<EntityValue>) {
    exists j :: 0 <= j < |found| && found[j].entity == n
  }

  /** `found[j]` is the last entity named `n`. */
  predicate LastAt(n: string, found: seq<EntityValue>, j: int) {
    0 <= j < |found| && found[j].entity == n && forall k :: j < k < |found| ==> found[k].entity != n
  }

  lemma {:induction false} CollectNameAt(kw: map<string, string>, name: string, found: seq<EntityValue>, n: string)
    ensures var r := CollectName(kw, name, found);
      && (n != name ==> (n in r <==> n in kw) && (n in kw ==> r[n] == kw[n]))
      && (n == name ==> (n in r <==> n in kw || Occurs(n, found)))
      && (n == name && !Occurs(n, found) && n in kw ==> r[n] == kw[n])
    decreases |found|
  {
    if found != [] {
      var init := found[..|found| - 1];
      CollectNameAt(kw, name, init, n);
      var last := |found| - 1;
      if Occurs(n, init) {
        var j :| 0 <= j < |init| && init[j].entity == n;
        assert found[j] == init[j];
      }
      if Occurs(n, found) && found[last].entity != n {
        var j :| 0 <= j < |found| && found[j].entity == n;
        assert init[j] == found[j];
      }
    }
  }

  /** The value collected for `name` is the one found last. */
  lemma {:induction false} CollectNameLast(kw: map<string, string>, name: string, found: seq<EntityValue>, j: int)
    requires LastAt(name, found, j)
    ensures name in CollectName(kw, name, found) && CollectName(kw, name, found)[name] == found[j].value
    decreases |found|
  {
    var init := found[..|found| - 1];
    if j < |found| - 1 {
      assert LastAt(name, init, j) by {
        forall k | j < k < |init| ensures init[k].entity != name {
          assert init[k] == found[k];
        }
      }
      CollectNameLast(kw, name, init, j);
    }
  }

  /**
    After the nested loops, an entity has a value exactly when the entry lists it and the
    classifier found it (or it had one before), and that value is the one found last.
  */
  lemma {:induction false} CollectAt(kw: map<string, string>, names: seq<string>, found: seq<EntityValue>, n: string)
    ensures var r := Collect(kw, names, found);
      && (n in r <==> n in kw || (n in names && Occurs(n, found)))
      && (!(n in names && Occurs(n, found)) && n in kw ==> r[n] == kw[n])
      && (forall j :: n in names && LastAt(n, found, j) ==> n in r && r[n] == found[j].value)
    decreases |names|
  {
    if names != [] {
      var init := names[..|names| - 1];
      var name := names[|names| - 1];
      assert names == init + [name];
      CollectAt(kw, init, found, n);
      CollectNameAt(Collect(kw, init, found), name, found, n);
      forall j | n == name && LastAt(n, found, j)
        ensures n in Collect(kw, names, found) && Collect(kw, names, found)[n] == found[j].value
      {
        CollectNameLast(Collect(kw, init, found), name, found, j);
      }
    }
  }

  /** Only listed entities are collected, extra ones are ignored, and the last occurrence wins. */
  lemma KwargsLastWins(names: seq<string>, found: seq<EntityValue>, n: string)
    ensures n in Kwargs(names, found) <==> n in names && Occurs(n, found)
    ensures forall j :: n in names && LastAt(n, found, j) ==> Kwargs(names, found)[n] == found[j].value
  {
    CollectAt(map[], names, found, n);
  }

  // ---------------------------------------------------------------------------
  // Filling the template

  /** `code_dict[intent]['code'].format_map(kwargs) + '\n'` */
  function Generate(data: Interpretation, dict: CodeDict): (r: Result<string, GenError>)
    ensures r.Ok? ==> data.intent in dict.intents && |r.value| > 0 && r.value[|r.value| - 1] == '\n'
    ensures r.Err? ==> (r.error.UnknownIntent? <==> data.intent !in dict.intents)
  {
    if data.intent !in dict.intents then Err(UnknownIntent(data.intent))
    else
      var entry := dict.intents[data.intent];
      match FormatMap(entry.code, Kwargs(entry.entities, data.entities))
      case Err(e) => Err(FormatFailed(e))
      case Ok(s) => Ok(s + "\n")
  }

  /** `generate_code`, with its nested loops filling `kwargs`. */
  method GenerateCode(data: Interpretation, dict: CodeDict) returns (r: Result<string, GenError>)
    ensures r == Generate(data, dict)
  {
    if data.intent !in dict.intents {
      return Err(UnknownIntent(data.intent));
    }
    var entry := dict.intents[data.intent];
    var names := entry.entities;
    var kwargs: map<string, string> := map[];
    var i := 0;
    while i < |names|
      invariant 0 <= i <= |names|
      invariant kwargs == Collect(map[], names[..i], data.entities)
    {
      var name := names[i];
      var before := kwargs;
      var j := 0;
      while j < |data.entities|
        invariant 0 <= j <= |data.entities|
        invariant kwargs == CollectName(before, name, data.entities[..j])
      {
        var e := data.entities[j];
        assert data.entities[..j + 1][..j] == data.entities[..j];
        if e.entity == name {
          kwargs := kwargs[name := e.value];
        }
        j := j + 1;
      }
      assert data.entities[..j] == data.entities;
      assert names[..i + 1][..i] == names[..i];
      i := i + 1;
    }
    assert names[..i] == names;
    match FormatMap(entry.code, kwargs)
    case Err(e) => r := Err(FormatFailed(e));
    case Ok(s) => r := Ok(s + "\n");
  }

  /** Every entity the entry lists was found by the classifier. */
  predicate Complete(data: Interpretation, dict: CodeDict)
    requires data.intent in dict.intents
  {
    forall n :: n in dict.intents[data.intent].entities ==> Occurs(n, data.entities)
  }

  /**
    The two ways `generate_code` fails. An unknown intent fails as such; for a well-formed
    entry, filling fails exactly when a listed entity was not found, and names it.
  */
  lemma GenerateFailures(data: Interpretation, dict: CodeDict)
    ensures data.intent !in dict.intents ==> Generate(data, dict) == Err(UnknownIntent(data.intent))
    ensures data.intent in dict.intents && WellFormedEntry(dict.intents[data.intent]) ==>
              (Generate(data, dict).Ok? <==> Complete(data, dict))
    ensures data.intent in dict.intents && WellFormedEntry(dict.intents[data.intent]) && Generate(data, dict).Err? ==>
              Generate(data, dict).error.FormatFailed? &&
              Generate(data, dict).error.err.MissingKey? &&
              Generate(data, dict).error.err.name in dict.intents[data.intent].entities &&
              !Occurs(Generate(data, dict).error.err.name, data.entities)
  {
    if data.intent in dict.intents && WellFormedEntry(dict.intents[data.intent]) {
      var entry := dict.intents[data.intent];
      var kw := Kwargs(entry.entities, data.entities);
      FillsIffSupplied(entry, kw);
      forall n | n in entry.entities
        ensures n in kw <==> Occurs(n, data.entities)
      {
        KwargsLastWins(entry.entities, data.entities, n);
      }
      if FormatMap(entry.code, kw).Err? {
        KwargsLastWins(entry.entities, data.entities, FormatMap(entry.code, kw).error.name);
      }
    }
  }

  /** On success the fragment is the filled template followed by a newline. */
  lemma GenerateOk(data: Interpretation, dict: CodeDict)
    requires Generate(data, dict).Ok?
    ensures data.intent in dict.intents
    ensures var entry := dict.intents[data.intent];
      FormatMap(entry.code, Kwargs(entry.entities, data.entities)).Ok? &&
      Generate(data, dict).value == FormatMap(entry.code, Kwargs(entry.entities, data.entities)).value + "\n"
  {
  }
}
