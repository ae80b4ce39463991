/**
  What each template of the Java table means under `format_map`: its fields are exactly
  its entities, and it renders to its text with each field replaced by its value.
*/
module JavaTemplates {
  import opened Wrappers
  import opened Format
  import opened Backend
  import opened Java
  import opened Braces

  // ---------------------------------------------------------------------------
  // Each template: its fields are its entities, and what it renders to

  lemma PrintTemplate(kw: map<string, string>)
    ensures "print" in Table.intents && Table.intents["print"] == PrintEntry
    ensures WellFormedEntry(PrintEntry)
    ensures FormatMap(PrintEntry.code, kw) ==
      if "to_print" !in kw then Err(MissingKey("to_print")) else Ok("System.out.println(" + kw["to_print"] + ");")
    ensures PlainValues(kw) && "to_print" in kw ==>
      Plain("System.out.println(" + kw["to_print"] + ");") && Balance("System.out.println(" + kw["to_print"] + ");") == 0
  {
    assert "{" + "to_print" + "}" == "{to_print}";
    OneField(PrintEntry, "System.out.println(", "to_print", ");", kw);
  }

  lemma PrintElementsTemplate(kw: map<string, string>)
    ensures "print_elements" in Table.intents && Table.intents["print_elements"] == PrintElementsEntry
    ensures WellFormedEntry(PrintElementsEntry)
    ensures FormatMap(PrintElementsEntry.code, kw) ==
      if "to_print" !in kw then Err(MissingKey("to_print")) else Ok(PrintElementsHead + kw["to_print"] + PrintElementsTail)
    ensures PlainValues(kw) && "to_print" in kw ==>
      Plain(PrintElementsHead + kw["to_print"] + PrintElementsTail) && Balance(PrintElementsHead + kw["to_print"] + PrintElementsTail) == 0
  {
    assert "{" + "to_print" + "}" == "{to_print}";
    PrintElementsPlain();
    OneField(PrintElementsEntry, PrintElementsHead, "to_print", PrintElementsTail, kw);
  }

  lemma InputTemplate(kw: map<string, string>)
    ensures "input" in Table.intents && Table.intents["input"] == InputEntry
    ensures WellFormedEntry(InputEntry)
    ensures FormatMap(InputEntry.code, kw) ==
      if "var_name" !in kw then Err(MissingKey("var_name")) else Ok("String " + kw["var_name"] + " = System.console().readLine();")
    ensures PlainValues(kw) && "var_name" in kw ==>
      Plain("String " + kw["var_name"] + " = System.console().readLine();") && Balance("String " + kw["var_name"] + " = System.console().readLine();") == 0
  {
    assert "{" + "var_name" + "}" == "{var_name}";
    OneField(InputEntry, "String ", "var_name", " = System.console().readLine();", kw);
  }

  lemma BeginIfTemplate(kw: map<string, string>)
    ensures "begin_if" in Table.intents && Table.intents["begin_if"] == BeginIfEntry
    ensures WellFormedEntry(BeginIfEntry)
    ensures FormatMap(BeginIfEntry.code, kw) ==
      if "condition" !in kw then Err(MissingKey("condition")) else Ok("if(" + kw["condition"] + ") " + "{")
    ensures PlainValues(kw) && "condition" in kw ==>
      Opens("if(" + kw["condition"] + ") " + "{") && Balance("if(" + kw["condition"] + ") " + "{") == 1
  {
    assert "{" + "condition" + "}" == "{condition}";
    OneFieldOpen(BeginIfEntry, "if(", "condition", ") ", kw);
  }

  lemma BeginElseTemplate(kw: map<string, string>)
    ensures "begin_else" in Table.intents && Table.intents["begin_else"] == BeginElseEntry
    ensures WellFormedEntry(BeginElseEntry)
    ensures FormatMap(BeginElseEntry.code, kw) ==
      Ok("else {")
    ensures Opens("else " + "{") && Balance("else " + "{") == 1
  {
    NoFieldOpen(BeginElseEntry, "else ", kw);
    assert "else " + "{" == "else {";
  }

  lemma BeginElseIfTemplate(kw: map<string, string>)
    ensures "begin_else_if" in Table.intents && Table.intents["begin_else_if"] == BeginElseIfEntry
    ensures WellFormedEntry(BeginElseIfEntry)
    ensures FormatMap(BeginElseIfEntry.code, kw) ==
      if "condition" !in kw then Err(MissingKey("condition")) else Ok("else if (" + kw["condition"] + ") " + "{")
    ensures PlainValues(kw) && "condition" in kw ==>
      Opens("else if (" + kw["condition"] + ") " + "{") && Balance("else if (" + kw["condition"] + ") " + "{") == 1
  {
    assert "{" + "condition" + "}" == "{condition}";
    OneFieldOpen(BeginElseIfEntry, "else if (", "condition", ") ", kw);
  }

  lemma BeginSwitchTemplate(kw: map<string, string>)
    ensures "begin_switch" in Table.intents && Table.intents["begin_switch"] == BeginSwitchEntry
    ensures WellFormedEntry(BeginSwitchEntry)
    ensures FormatMap(BeginSwitchEntry.code, kw) ==
      if "switch_var" !in kw then Err(MissingKey("switch_var")) else Ok("switch (" + kw["switch_var"] + ") " + "{")
    ensures PlainValues(kw) && "switch_var" in kw ==>
      Opens("switch (" + kw["switch_var"] + ") " + "{") && Balance("switch (" + kw["switch_var"] + ") " + "{") == 1
  {
    assert "{" + "switch_var" + "}" == "{switch_var}";
    OneFieldOpen(BeginSwitchEntry, "switch (", "switch_var", ") ", kw);
  }

  lemma BeginCaseTemplate(kw: map<string, string>)
    ensures "begin_case" in Table.intents && Table.intents["begin_case"] == BeginCaseEntry
    ensures WellFormedEntry(BeginCaseEntry)
    ensures FormatMap(BeginCaseEntry.code, kw) ==
      if "case_value" !in kw then Err(MissingKey("case_value")) else Ok("case " + kw["case_value"] + " :")
    ensures PlainValues(kw) && "case_value" in kw ==>
      Plain("case " + kw["case_value"] + " :") && Balance("case " + kw["case_value"] + " :") == 0
  {
    assert "{" + "case_value" + "}" == "{case_value}";
    OneField(BeginCaseEntry, "case ", "case_value", " :", kw);
  }

  lemma BeginUnlessTemplate(kw: map<string, string>)
    ensures "begin_unless" in Table.intents && Table.intents["begin_unless"] == BeginUnlessEntry
    ensures WellFormedEntry(BeginUnlessEntry)
    ensures FormatMap(BeginUnlessEntry.code, kw) ==
      if "condition" !in kw then Err(MissingKey("condition")) else Ok("if (!(" + kw["condition"] + ")) " + "{")
    ensures PlainValues(kw) && "condition" in kw ==>
      Opens("if (!(" + kw["condition"] + ")) " + "{") && Balance("if (!(" + kw["condition"] + ")) " + "{") == 1
  {
    assert "{" + "condition" + "}" == "{condition}";
    OneFieldOpen(BeginUnlessEntry, "if (!(", "condition", ")) ", kw);
  }

  lemma BeginForEachTemplate(kw: map<string, string>)
    ensures "begin_for_each" in Table.intents && Table.intents["begin_for_each"] == BeginForEachEntry
    ensures WellFormedEntry(BeginForEachEntry)
    ensures FormatMap(BeginForEachEntry.code, kw) ==
      if "loop_as" !in kw then Err(MissingKey("loop_as")) else if "loop_over" !in kw then Err(MissingKey("loop_over")) else Ok("for ( Object " + kw["loop_as"] + " : " + kw["loop_over"] + ") " + "{")
    ensures PlainValues(kw) && "loop_as" in kw && "loop_over" in kw ==>
      Opens("for ( Object " + kw["loop_as"] + " : " + kw["loop_over"] + ") " + "{") && Balance("for ( Object " + kw["loop_as"] + " : " + kw["loop_over"] + ") " + "{") == 1
  {
    assert "{" + "loop_as" + "}" == "{loop_as}";
    assert "{" + "loop_over" + "}" == "{loop_over}";
    TwoFieldsOpen(BeginForEachEntry, "for ( Object ", "loop_as", " : ", "loop_over", ") ", kw);
  }

  lemma BeginWhileTemplate(kw: map<string, string>)
    ensures "begin_while" in Table.intents && Table.intents["begin_while"] == BeginWhileEntry
    ensures WellFormedEntry(BeginWhileEntry)
    ensures FormatMap(BeginWhileEntry.code, kw) ==
      if "condition" !in kw then Err(MissingKey("condition")) else Ok("while (" + kw["condition"] + ") " + "{")
    ensures PlainValues(kw) && "condition" in kw ==>
      Opens("while (" + kw["condition"] + ") " + "{") && Balance("while (" + kw["condition"] + ") " + "{") == 1
  {
    assert "{" + "condition" + "}" == "{condition}";
    OneFieldOpen(BeginWhileEntry, "while (", "condition", ") ", kw);
  }

  lemma DeclareVarTemplate(kw: map<string, string>)
    ensures "declare_var" in Table.intents && Table.intents["declare_var"] == DeclareVarEntry
    ensures WellFormedEntry(DeclareVarEntry)
    ensures FormatMap(DeclareVarEntry.code, kw) ==
      if "type" !in kw then Err(MissingKey("type")) else if "name" !in kw then Err(MissingKey("name")) else Ok(kw["type"] + " " + kw["name"] + " = new " + kw["type"] + "();")
    ensures PlainValues(kw) && "type" in kw && "name" in kw ==>
      Plain(kw["type"] + " " + kw["name"] + " = new " + kw["type"] + "();") && Balance(kw["type"] + " " + kw["name"] + " = new " + kw["type"] + "();") == 0
  {
    assert "{" + "type" + "}" == "{type}";
    assert "{" + "name" + "}" == "{name}";
    ThreeFields(DeclareVarEntry, "", "type", " ", "name", " = new ", "type", "();", kw);
    if "type" in kw && "name" in kw {
      assert "" + kw["type"] == kw["type"];
    }
  }

  lemma DeclareArrayTemplate(kw: map<string, string>)
    ensures "declare_array" in Table.intents && Table.intents["declare_array"] == DeclareArrayEntry
    ensures WellFormedEntry(DeclareArrayEntry)
    ensures FormatMap(DeclareArrayEntry.code, kw) ==
      if "type" !in kw then Err(MissingKey("type")) else if "name" !in kw then Err(MissingKey("name")) else Ok("ArrayList<" + kw["type"] + "> " + kw["name"] + " = new ArrayList<" + kw["type"] + ">();")
    ensures PlainValues(kw) && "type" in kw && "name" in kw ==>
      Plain("ArrayList<" + kw["type"] + "> " + kw["name"] + " = new ArrayList<" + kw["type"] + ">();") && Balance("ArrayList<" + kw["type"] + "> " + kw["name"] + " = new ArrayList<" + kw["type"] + ">();") == 0
  {
    assert "{" + "type" + "}" == "{type}";
    assert "{" + "name" + "}" == "{name}";
    ThreeFields(DeclareArrayEntry, "ArrayList<", "type", "> ", "name", " = new ArrayList<", "type", ">();", kw);
  }

  lemma InitializeAssignTemplate(kw: map<string, string>)
    ensures "initialize_assign" in Table.intents && Table.intents["initialize_assign"] == InitializeAssignEntry
    ensures WellFormedEntry(InitializeAssignEntry)
    ensures FormatMap(InitializeAssignEntry.code, kw) ==
      if "name" !in kw then Err(MissingKey("name")) else if "value" !in kw then Err(MissingKey("value")) else Ok(kw["name"] + " = " + kw["value"] + ";")
    ensures PlainValues(kw) && "name" in kw && "value" in kw ==>
      Plain(kw["name"] + " = " + kw["value"] + ";") && Balance(kw["name"] + " = " + kw["value"] + ";") == 0
  {
    assert "{" + "name" + "}" == "{name}";
    assert "{" + "value" + "}" == "{value}";
    TwoFields(InitializeAssignEntry, "", "name", " = ", "value", ";", kw);
    if "name" in kw && "value" in kw {
      assert "" + kw["name"] == kw["name"];
    }
  }
}
