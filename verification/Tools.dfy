/** The tool registry: the static list every gate rests on. */
module Tools {
  import opened Wrappers
  import opened Types

  datatype ToolSpec = ToolSpec(name: string, requiredScope: Scope, mutates: bool)

  const BUILTIN_TOOLS: seq<ToolSpec> := [
    ToolSpec("fs_read", FsRead, false),
    ToolSpec("excel_workbooks", ExcelCom, false),
    ToolSpec("excel_range_read", ExcelCom, false),
    ToolSpec("run_python", AiExecPython, true)
  ]

  function FindIn(tools: seq<ToolSpec>, name: string): Option<ToolSpec> {
    if tools == [] then None
    else if tools[0].name == name then Some(tools[0])
    else FindIn(tools[1..], name)
  }

  function Find(name: string): Option<ToolSpec> {
    FindIn(BUILTIN_TOOLS, name)
  }

  /** The registry: four tools by name, with the scope each needs; only `run_python` mutates. */
  lemma RegistryIs(name: string)
    ensures name == "fs_read" ==> Find(name) == Some(ToolSpec(name, FsRead, false))
    ensures name == "excel_workbooks" || name == "excel_range_read" ==>
      Find(name) == Some(ToolSpec(name, ExcelCom, false))
    ensures name == "run_python" ==> Find(name) == Some(ToolSpec(name, AiExecPython, true))
    ensures Find(name).Some? <==>
      name == "fs_read" || name == "excel_workbooks" || name == "excel_range_read" || name == "run_python"
  {
    FindInReturnsRegistered(BUILTIN_TOOLS, name);
    assert BUILTIN_TOOLS[0].name == "fs_read" && BUILTIN_TOOLS[1].name == "excel_workbooks"
      && BUILTIN_TOOLS[2].name == "excel_range_read" && BUILTIN_TOOLS[3].name == "run_python";
    NamesDiffer();
  }

  lemma NamesDiffer()
    ensures forall i, j :: 0 <= i < j < |BUILTIN_TOOLS| ==> BUILTIN_TOOLS[i].name != BUILTIN_TOOLS[j].name
  {
    assert |BUILTIN_TOOLS[0].name| == 7 && |BUILTIN_TOOLS[1].name| == 15 && |BUILTIN_TOOLS[2].name| == 16
      && |BUILTIN_TOOLS[3].name| == 10;
  }

  lemma {:induction false} FindInReturnsRegistered(tools: seq<ToolSpec>, name: string)
    ensures FindIn(tools, name).Some? ==> FindIn(tools, name).value in tools && FindIn(tools, name).value.name == name
    ensures FindIn(tools, name).None? ==> forall i :: 0 <= i < |tools| ==> tools[i].name != name
  {
    if tools != [] {
      FindInReturnsRegistered(tools[1..], name);
    }
  }
}
