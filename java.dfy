/**
  The Java backend table, `code_dict` of `languages/java.py`, and what its templates
  promise: every field is a listed entity and every listed entity is a field, block
  openers leave exactly one brace open, statements contain no brace.
*/
module Java {
  import opened Wrappers
  import opened Format
  import opened Backend
  import opened Braces

  const EndBlockText := "}\n"

  const DefaultCodeText :=
    "import java.awt.*;\n" + "import java.awt.geom.*;\n" + "import java.io.*;\n" + "import java.util.*;\n" + "\n"

  /** Opens the class and the `main` method: two braces. */
  const BeginMainText := "public class test " + "{" + "\npublic static void main() " + "{" + "\n"

  /**
    `print_elements` is a triple-quoted string in the source, written here line by line
    around its one field; `\b` is a backspace.
  */
  const PrintElementsHead := "\n" + "            " + "for ( Object element : "
  const PrintElementsTail :=
    ")\n"
    + "                " + "System.out.print(element + \", \");\n"
    + "            " + "System.out.println(\"\U{8}\U{8} \n\");\n"
    + "        "

  const PrintEntry := Entry(["to_print"], "System.out.println(" + "{to_print}" + ");")
  const PrintElementsEntry := Entry(["to_print"], PrintElementsHead + "{to_print}" + PrintElementsTail)
  const InputEntry := Entry(["var_name"], "String " + "{var_name}" + " = System.console().readLine();")
  const BeginIfEntry := Entry(["condition"], "if(" + "{condition}" + ") " + "{{")
  const BeginElseEntry := Entry([], "else " + "{{")
  const BeginElseIfEntry := Entry(["condition"], "else if (" + "{condition}" + ") " + "{{")
  const BeginSwitchEntry := Entry(["switch_var"], "switch (" + "{switch_var}" + ") " + "{{")
  const BeginCaseEntry := Entry(["case_value"], "case " + "{case_value}" + " :")
  const BeginUnlessEntry := Entry(["condition"], "if (!(" + "{condition}" + ")) " + "{{")
  const BeginForEachEntry := Entry(["loop_over", "loop_as"], "for ( Object " + "{loop_as}" + " : " + "{loop_over}" + ") " + "{{")
  const BeginWhileEntry := Entry(["condition"], "while (" + "{condition}" + ") " + "{{")
  const DeclareVarEntry := Entry(["name", "type"], "{type}" + " " + "{name}" + " = new " + "{type}" + "();")
  const DeclareArrayEntry := Entry(["name", "type"], "ArrayList<" + "{type}" + "> " + "{name}" + " = new ArrayList<" + "{type}" + ">();")
  const InitializeAssignEntry := Entry(["name", "value"], "{name}" + " = " + "{value}" + ";")

  const Table := CodeDict(
    map[
      "print" := PrintEntry,
      "print_elements" := PrintElementsEntry,
      "input" := InputEntry,
      "begin_if" := BeginIfEntry,
      "begin_else" := BeginElseEntry,
      "begin_else_if" := BeginElseIfEntry,
      "begin_switch" := BeginSwitchEntry,
      "begin_case" := BeginCaseEntry,
      "begin_unless" := BeginUnlessEntry,
      "begin_for_each" := BeginForEachEntry,
      "begin_while" := BeginWhileEntry,
      "declare_var" := DeclareVarEntry,
      "declare_array" := DeclareArrayEntry,
      "initialize_assign" := InitializeAssignEntry
    ],
    EndBlockText, DefaultCodeText, BeginMainText)

  /** The text around the one field of `print_elements` holds no brace. */
  lemma PrintElementsPlain()
    ensures Plain(PrintElementsHead) && Plain(PrintElementsTail)
  {
    PlainAppend("\n", "            ");
    PlainAppend("\n" + "            ", "for ( Object element : ");
    PlainAppend(")\n", "                ");
    PlainAppend(")\n" + "                ", "System.out.print(element + \", \");\n");
    PlainAppend(")\n" + "                " + "System.out.print(element + \", \");\n", "            ");
    PlainAppend(")\n" + "                " + "System.out.print(element + \", \");\n" + "            ",
      "System.out.println(\"\U{8}\U{8} \n\");\n");
    PlainAppend(")\n" + "                " + "System.out.print(element + \", \");\n" + "            "
      + "System.out.println(\"\U{8}\U{8} \n\");\n", "        ");
  }

  // ---------------------------------------------------------------------------
  // The template shapes the table uses: brace-free text and fields alternating,
  // optionally closed by an escaped `{{`. Each shape lemma says, for any entry of that
  // shape, that the template's fields are its entities and what it renders to.

  /** Regrouping a concatenation, for the steps where the shapes below split a template. */
  lemma AppendAssoc(x: string, y: string, z: string)
    ensures x + (y + z) == x + y + z
  {
  }

  /** The last text of a template, with or without a closing `{{`. */
  lemma Tail(b: string, open: bool, kw: map<string, string>)
    requires Plain(b)
    ensures var t := if open then b + "{{" else b;
      Parse(t).Some? && Holes(Parse(t).value) == {} && FormatMap(t, kw) == Ok(if open then b + "{" else b)
  {
    var e := if open then [Lit('{')] else [];
    var esc := if open then "{{" else "";
    assert Parse("") == Some([]);
    if open {
      ParseLitStep('{', "");
      assert ['{', '{'] + "" == "{{";
      assert [Lit('{')] + [] == e;
    }
    assert Parse(esc) == Some(e);
    ParsePlain(b, esc);
    LitsOfPlain(b, kw);
    HolesAppend(Lits(b), e);
    RenderAppend(Lits(b), e, kw);
    RenderSingle(Lit('{'), kw);
    assert Render([], kw) == Ok("");
    assert Holes(e) == {};
    assert b + "" == b;
    assert Lits(b) + [] == Lits(b);
  }

  /** Template `a{{`. */
  lemma NoFieldOpen(e: Entry, a: string, kw: map<string, string>)
    requires e.code == a + "{{" && e.entities == []
    requires Plain(a)
    ensures WellFormedEntry(e)
    ensures FormatMap(e.code, kw) == Ok(a + "{")
    ensures Opens(a + "{") && Balance(a + "{") == 1
  {
    Tail(a, true, kw);
    OpensAfter(a);
  }

  /** Template `a{x}b`. */
  lemma OneField(e: Entry, a: string, x: string, b: string, kw: map<string, string>)
    requires e.code == a + ("{" + x + "}") + b && (set n | n in e.entities) == {x}
    requires Plain(a) && ValidName(x) && Plain(b)
    ensures WellFormedEntry(e)
    ensures FormatMap(e.code, kw) == if x in kw then Ok(a + kw[x] + b) else Err(MissingKey(x))
    ensures x in kw && Plain(kw[x]) ==> Plain(a + kw[x] + b) && Balance(a + kw[x] + b) == 0
  {
    Tail(b, false, kw);
    FieldThen(a, x, b, kw);
    if x in kw && Plain(kw[x]) {
      PlainJoin3(a, kw[x], b);
      BalanceOfPlain(a + kw[x] + b);
    }
  }

  /** Template `a{x}b{{`. */
  lemma OneFieldOpen(e: Entry, a: string, x: string, b: string, kw: map<string, string>)
    requires e.code == a + ("{" + x + "}") + b + "{{" && (set n | n in e.entities) == {x}
    requires Plain(a) && ValidName(x) && Plain(b)
    ensures WellFormedEntry(e)
    ensures FormatMap(e.code, kw) == if x in kw then Ok(a + kw[x] + b + "{") else Err(MissingKey(x))
    ensures x in kw && Plain(kw[x]) ==> Opens(a + kw[x] + b + "{") && Balance(a + kw[x] + b + "{") == 1
  {
    if x in kw && Plain(kw[x]) {
      PlainJoin3(a, kw[x], b);
      OpensAfter(a + kw[x] + b);
    }
    Tail(b, true, kw);
    FieldThen(a, x, b + "{{", kw);
    AppendAssoc(a + ("{" + x + "}"), b, "{{");
    if x in kw {
      AppendAssoc(a + kw[x], b, "{");
    }
  }

  /** Template `a{x}b{y}c`. */
  lemma TwoFields(e: Entry, a: string, x: string, b: string, y: string, c: string, kw: map<string, string>)
    requires e.code == a + ("{" + x + "}") + b + ("{" + y + "}") + c && (set n | n in e.entities) == {x, y}
    requires Plain(a) && ValidName(x) && Plain(b) && ValidName(y) && Plain(c)
    ensures WellFormedEntry(e)
    ensures FormatMap(e.code, kw) ==
      if x !in kw then Err(MissingKey(x))
      else if y !in kw then Err(MissingKey(y))
      else Ok(a + kw[x] + b + kw[y] + c)
    ensures x in kw && y in kw && Plain(kw[x]) && Plain(kw[y]) ==>
      Plain(a + kw[x] + b + kw[y] + c) && Balance(a + kw[x] + b + kw[y] + c) == 0
  {
    if x in kw && y in kw && Plain(kw[x]) && Plain(kw[y]) {
      PlainJoin3(a, kw[x], b);
      PlainJoin3(a + kw[x] + b, kw[y], c);
      BalanceOfPlain(a + kw[x] + b + kw[y] + c);
    }
    Tail(c, false, kw);
    FieldThen(b, y, c, kw);
    FieldThen(a, x, b + ("{" + y + "}") + c, kw);
    var p := a + ("{" + x + "}");
    AppendAssoc(p, b + ("{" + y + "}"), c);
    AppendAssoc(p, b, "{" + y + "}");
    if x in kw && y in kw {
      var q := a + kw[x];
      AppendAssoc(q, b + kw[y], c);
      AppendAssoc(q, b, kw[y]);
    }
  }

  /** Template `a{x}b{y}c{{`. */
  lemma TwoFieldsOpen(e: Entry, a: string, x: string, b: string, y: string, c: string, kw: map<string, string>)
    requires e.code == a + ("{" + x + "}") + b + ("{" + y + "}") + c + "{{" && (set n | n in e.entities) == {x, y}
    requires Plain(a) && ValidName(x) && Plain(b) && ValidName(y) && Plain(c)
    ensures WellFormedEntry(e)
    ensures FormatMap(e.code, kw) ==
      if x !in kw then Err(MissingKey(x))
      else if y !in kw then Err(MissingKey(y))
      else Ok(a + kw[x] + b + kw[y] + c + "{")
    ensures x in kw && y in kw && Plain(kw[x]) && Plain(kw[y]) ==>
      Opens(a + kw[x] + b + kw[y] + c + "{") && Balance(a + kw[x] + b + kw[y] + c + "{") == 1
  {
    if x in kw && y in kw && Plain(kw[x]) && Plain(kw[y]) {
      PlainJoin3(a, kw[x], b);
      PlainJoin3(a + kw[x] + b, kw[y], c);
      OpensAfter(a + kw[x] + b + kw[y] + c);
    }
    Tail(c, true, kw);
    FieldThen(b, y, c + "{{", kw);
    AppendAssoc(b + ("{" + y + "}"), c, "{{");
    var rest := b + ("{" + y + "}") + c + "{{";
    FieldThen(a, x, rest, kw);
    var p := a + ("{" + x + "}");
    AppendAssoc(p, b + ("{" + y + "}") + c, "{{");
    AppendAssoc(p, b + ("{" + y + "}"), c);
    AppendAssoc(p, b, "{" + y + "}");
    if x in kw && y in kw {
      AppendAssoc(b + kw[y], c, "{");
      var q := a + kw[x];
      AppendAssoc(q, b + kw[y] + c, "{");
      AppendAssoc(q, b + kw[y], c);
      AppendAssoc(q, b, kw[y]);
    }
  }

  /** Template `a{x}b{y}c{z}d`. */
  lemma ThreeFields(e: Entry, a: string, x: string, b: string, y: string, c: string, z: string, d: string, kw: map<string, string>)
    requires e.code == a + ("{" + x + "}") + b + ("{" + y + "}") + c + ("{" + z + "}") + d
    requires (set n | n in e.entities) == {x, y, z}
    requires Plain(a) && ValidName(x) && Plain(b) && ValidName(y) && Plain(c) && ValidName(z) && Plain(d)
    ensures WellFormedEntry(e)
    ensures FormatMap(e.code, kw) ==
      if x !in kw then Err(MissingKey(x))
      else if y !in kw then Err(MissingKey(y))
      else if z !in kw then Err(MissingKey(z))
      else Ok(a + kw[x] + b + kw[y] + c + kw[z] + d)
    ensures x in kw && y in kw && z in kw && Plain(kw[x]) && Plain(kw[y]) && Plain(kw[z]) ==>
      Plain(a + kw[x] + b + kw[y] + c + kw[z] + d) && Balance(a + kw[x] + b + kw[y] + c + kw[z] + d) == 0
  {
    if x in kw && y in kw && z in kw && Plain(kw[x]) && Plain(kw[y]) && Plain(kw[z]) {
      PlainJoin3(a, kw[x], b);
      PlainJoin3(a + kw[x] + b, kw[y], c);
      PlainJoin3(a + kw[x] + b + kw[y] + c, kw[z], d);
      BalanceOfPlain(a + kw[x] + b + kw[y] + c + kw[z] + d);
    }
    Tail(d, false, kw);
    FieldThen(c, z, d, kw);
    var r1 := c + ("{" + z + "}") + d;
    FieldThen(b, y, r1, kw);
    AppendAssoc(b + ("{" + y + "}"), c + ("{" + z + "}"), d);
    AppendAssoc(b + ("{" + y + "}"), c, "{" + z + "}");
    var r2 := b + ("{" + y + "}") + c + ("{" + z + "}") + d;
    FieldThen(a, x, r2, kw);
    var p := a + ("{" + x + "}");
    AppendAssoc(p, b + ("{" + y + "}") + c + ("{" + z + "}"), d);
    AppendAssoc(p, b + ("{" + y + "}") + c, "{" + z + "}");
    AppendAssoc(p, b + ("{" + y + "}"), c);
    AppendAssoc(p, b, "{" + y + "}");
    if x in kw && y in kw && z in kw {
      AppendAssoc(c + kw[z], d, "");
      AppendAssoc(b + kw[y], c + kw[z], d);
      AppendAssoc(b + kw[y], c, kw[z]);
      var q := a + kw[x];
      AppendAssoc(q, b + kw[y] + c + kw[z], d);
      AppendAssoc(q, b + kw[y] + c, kw[z]);
      AppendAssoc(q, b + kw[y], c);
      AppendAssoc(q, b, kw[y]);
    }
  }
}
