/**
  The pipeline run with the Java table: since every Java template's fields are its listed
  entities, a run fails only on a line the classifier could not place or left incomplete.
*/
module JavaPipeline {
  import opened Wrappers
  import opened Backend
  import opened Java
  import opened JavaProperties
  import opened Generation
  import opened Pipeline

  /**
    The Java run succeeds exactly when every line is blank, is `Main()`, or is classified
    as a Java intent with all the entities that intent lists.
  */
  lemma JavaOutputOkIff(lines: seq<string>, classify: string -> Interpretation, python: CodeDict, cpp: CodeDict)
    ensures Output("java", lines, classify, python, cpp, Table).Ok? <==>
              forall i :: 0 <= i < |lines| ==> LineOk(lines[i], Table, classify)
  {
    TableWellFormed();
    OutputOfRun("java", lines, classify, python, cpp, Table, Table);
    RunOkIff(lines, Table, classify);
  }
}
