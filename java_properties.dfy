/**
  Table-wide properties of the Java backend: every template's fields are its entities,
  so a line whose entities were all collected always renders; block openers leave
  exactly one brace open, statements (and `begin_case`) leave none; `end_block` closes
  one, and `begin_main` opens two, the second of which the final `}` closes.
*/
module JavaProperties {
  import opened Wrappers
  import opened Format
  import opened Backend
  import opened Java
  import opened JavaTemplates
  import opened Braces

  const Openers: set<string> :=
    {"begin_if", "begin_else", "begin_else_if", "begin_switch", "begin_unless", "begin_for_each", "begin_while"}

  const Statements: set<string> :=
    {"print", "print_elements", "input", "declare_var", "declare_array", "initialize_assign"}

  // ---------------------------------------------------------------------------
  // The table as a whole

  /** The table's intents: the block openers, the statements and `begin_case`. */
  lemma IntentNames()
    ensures Table.intents.Keys == Openers + Statements + {"begin_case"}
  {
  }

  lemma OpenersWellFormed()
    ensures forall i :: i in Openers ==> i in Table.intents && WellFormedEntry(Table.intents[i])
  {
    forall i | i in Openers
      ensures i in Table.intents && WellFormedEntry(Table.intents[i])
    {
      var kw: map<string, string> := map[];
      if i == "begin_if" {
        BeginIfTemplate(kw);
      } else if i == "begin_else" {
        BeginElseTemplate(kw);
      } else if i == "begin_else_if" {
        BeginElseIfTemplate(kw);
      } else if i == "begin_switch" {
        BeginSwitchTemplate(kw);
      } else if i == "begin_unless" {
        BeginUnlessTemplate(kw);
      } else if i == "begin_for_each" {
        BeginForEachTemplate(kw);
      } else {
        BeginWhileTemplate(kw);
      }
    }
  }

  lemma StatementsWellFormed()
    ensures forall i :: i in Statements + {"begin_case"} ==> i in Table.intents && WellFormedEntry(Table.intents[i])
  {
    forall i | i in Statements + {"begin_case"}
      ensures i in Table.intents && WellFormedEntry(Table.intents[i])
    {
      var kw: map<string, string> := map[];
      if i == "print" {
        PrintTemplate(kw);
      } else if i == "print_elements" {
        PrintElementsTemplate(kw);
      } else if i == "input" {
        InputTemplate(kw);
      } else if i == "begin_case" {
        BeginCaseTemplate(kw);
      } else if i == "declare_var" {
        DeclareVarTemplate(kw);
      } else if i == "declare_array" {
        DeclareArrayTemplate(kw);
      } else {
        InitializeAssignTemplate(kw);
      }
    }
  }

  /** Every template's fields are exactly its listed entities. */
  lemma TableWellFormed()
    ensures forall i :: i in Table.intents ==> WellFormedEntry(Table.intents[i])
  {
    IntentNames();
    OpenersWellFormed();
    StatementsWellFormed();
  }

  /**
    Filling a Java template fails exactly when one of its listed entities was not
    collected, and the error names that entity.
  */
  lemma JavaFillsIffSupplied(i: string, kw: map<string, string>)
    requires i in Table.intents
    ensures FormatMap(Table.intents[i].code, kw).Ok? <==> Supplied(Table.intents[i], kw)
    ensures FormatMap(Table.intents[i].code, kw).Err? ==>
              FormatMap(Table.intents[i].code, kw).error.MissingKey? &&
              FormatMap(Table.intents[i].code, kw).error.name in Table.intents[i].entities &&
              FormatMap(Table.intents[i].code, kw).error.name !in kw
  {
    TableWellFormed();
    FillsIffSupplied(Table.intents[i], kw);
  }

  /** `begin_else` takes no entity and always renders to `else {`. */
  lemma BeginElseRendersElse(kw: map<string, string>)
    ensures "begin_else" in Table.intents && Table.intents["begin_else"].entities == []
    ensures FormatMap(Table.intents["begin_else"].code, kw) == Ok("else {")
  {
    BeginElseTemplate(kw);
  }

  /** With brace-free values, each block opener renders to text that opens one block. */
  lemma OpenerOpensOneBlock(i: string, kw: map<string, string>)
    requires i in Openers && PlainValues(kw)
    ensures i in Table.intents
    ensures Supplied(Table.intents[i], kw) ==>
              FormatMap(Table.intents[i].code, kw).Ok? &&
              Opens(FormatMap(Table.intents[i].code, kw).value) &&
              Balance(FormatMap(Table.intents[i].code, kw).value) == 1
  {
    if i in {"begin_if", "begin_else", "begin_else_if", "begin_unless"} {
      ConditionalOpensOneBlock(i, kw);
    } else {
      LoopOrSwitchOpensOneBlock(i, kw);
    }
  }

  lemma ConditionalOpensOneBlock(i: string, kw: map<string, string>)
    requires i in {"begin_if", "begin_else", "begin_else_if", "begin_unless"} && PlainValues(kw)
    ensures i in Table.intents
    ensures Supplied(Table.intents[i], kw) ==>
              FormatMap(Table.intents[i].code, kw).Ok? &&
              Opens(FormatMap(Table.intents[i].code, kw).value) &&
              Balance(FormatMap(Table.intents[i].code, kw).value) == 1
  {
    if i == "begin_if" {
      BeginIfTemplate(kw);
    } else if i == "begin_else" {
      BeginElseTemplate(kw);
    } else if i == "begin_else_if" {
      BeginElseIfTemplate(kw);
    } else {
      BeginUnlessTemplate(kw);
    }
  }

  lemma LoopOrSwitchOpensOneBlock(i: string, kw: map<string, string>)
    requires i in {"begin_switch", "begin_for_each", "begin_while"} && PlainValues(kw)
    ensures i in Table.intents
    ensures Supplied(Table.intents[i], kw) ==>
              FormatMap(Table.intents[i].code, kw).Ok? &&
              Opens(FormatMap(Table.intents[i].code, kw).value) &&
              Balance(FormatMap(Table.intents[i].code, kw).value) == 1
  {
    if i == "begin_switch" {
      BeginSwitchTemplate(kw);
    } else if i == "begin_for_each" {
      BeginForEachTemplate(kw);
    } else {
      BeginWhileTemplate(kw);
    }
  }

  /** With brace-free values, a statement renders to brace-free text. */
  lemma StatementIsPlain(i: string, kw: map<string, string>)
    requires i in Statements && PlainValues(kw)
    ensures i in Table.intents
    ensures Supplied(Table.intents[i], kw) ==>
              FormatMap(Table.intents[i].code, kw).Ok? &&
              Plain(FormatMap(Table.intents[i].code, kw).value) &&
              Balance(FormatMap(Table.intents[i].code, kw).value) == 0
  {
    if i == "print" {
      PrintTemplate(kw);
    } else if i == "print_elements" {
      PrintElementsTemplate(kw);
    } else if i == "input" {
      InputTemplate(kw);
    } else if i == "declare_var" {
      DeclareVarTemplate(kw);
    } else if i == "declare_array" {
      DeclareArrayTemplate(kw);
    } else {
      InitializeAssignTemplate(kw);
    }
  }

  /**
    `begin_case` renders without any brace, so it opens no block. The lines indented under
    it still get an `end_block` when the indentation drops, since `Pipeline.LineCloses`
    emits one for every drop whatever line opened the level.
  */
  lemma BeginCaseOpensNothing(kw: map<string, string>)
    requires PlainValues(kw) && "case_value" in kw
    ensures "begin_case" in Table.intents
    ensures FormatMap(Table.intents["begin_case"].code, kw).Ok?
    ensures Plain(FormatMap(Table.intents["begin_case"].code, kw).value)
    ensures Balance(FormatMap(Table.intents["begin_case"].code, kw).value) == 0
  {
    BeginCaseTemplate(kw);
  }

  /** `end_block` ends a line and closes one brace, as does the final `}`. */
  lemma EndBlockClosesOne()
    ensures Table.endBlock == EndBlockText && EndBlockText == "}\n"
    ensures EndBlockText[|EndBlockText| - 1] == '\n'
    ensures Balance(EndBlockText) == -1 && Balance("}") == -1
  {
  }

  /** Text of the form `p{q{` followed by a newline, with `p` and `q` brace-free. */
  lemma TwoOpenedLine(p: string, q: string)
    requires Plain(p) && Plain(q)
    ensures Balance(p + "{" + q + "{" + "\n") == 2
  {
    BalanceAppend(p, "{");
    BalanceAppend(p + "{", q);
    BalanceAppend(p + "{" + q, "{");
    BalanceAppend(p + "{" + q + "{", "\n");
    BalanceOfPlain(p);
    BalanceOfPlain(q);
  }

  /** `begin_main` ends a line and opens two braces: the class and the `main` method. */
  lemma BeginMainOpensTwo()
    ensures Table.beginMain == BeginMainText
    ensures BeginMainText[|BeginMainText| - 1] == '\n'
    ensures Balance(BeginMainText) == 2
  {
    TwoOpenedLine("public class test ", "\npublic static void main() ");
  }

  /** `default_code` ends a line and holds no brace. */
  lemma DefaultCodePlain()
    ensures Table.defaultCode == DefaultCodeText
    ensures DefaultCodeText[|DefaultCodeText| - 1] == '\n'
    ensures Plain(DefaultCodeText) && Balance(DefaultCodeText) == 0
  {
    var d1, d2, d3, d4 := "import java.awt.*;\n", "import java.awt.geom.*;\n", "import java.io.*;\n", "import java.util.*;\n";
    PlainJoin3(d1, d2, d3);
    PlainJoin3(d1 + d2 + d3, d4, "\n");
    BalanceOfPlain(DefaultCodeText);
  }
}
