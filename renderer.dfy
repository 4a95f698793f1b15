/** `Renderer::initGLEW` (src/rendering/renderer.cpp): after `glewInit`
    succeeds, every entry of a fixed table of GL entry points is checked for
    availability, in table order; the renderer is usable exactly when no
    entry marked required is missing. Which entry points the driver provides
    is an input (`present`), as is the outcome of `glewInit`. */
module Rendering {

  datatype Severity = Optional | Required

  /** One `GLFunc` record: the entry point's name and severity. The message
      an entry may print when missing is logging only. */
  datatype GLFunc = GLFunc(name: string, severity: Severity)

  /** What the check logs for one entry: `OK`, or `NOT AVAILABLE` as a
      warning (optional) or as an error (required). */
  datatype Status = Available | MissingOptional | MissingRequired

  function Req(name: string): GLFunc { GLFunc(name, Required) }
  function Opt(name: string): GLFunc { GLFunc(name, Optional) }

  /** The `functions[]` table, in order (`glDrawElements` is listed twice). */
  const FUNCTIONS: seq<GLFunc> := [
    Req("glGenVertexArrays"),
    Req("glDeleteVertexArrays"),
    Req("glBindVertexArray"),
    Req("glGetVertexAttribiv"),
    Req("glVertexAttribPointer"),
    Req("glBindAttribLocation"),
    Opt("glEnableVertexAttribArray"),
    Opt("glDisableVertexAttribArray"),
    Req("glGenBuffers"),
    Req("glDeleteBuffers"),
    Req("glBindBuffer"),
    Opt("glCopyBufferSubData"),
    Req("glBufferSubData"),
    Req("glGetBufferParameteriv"),
    Req("glActiveTexture"),
    Opt("glGenerateMipmap"),
    Opt("glGenerateMipmapEXT"),
    Req("glDrawElements"),
    Req("glUseProgram"),
    Req("glCreateProgram"),
    Req("glLinkProgram"),
    Req("glDeleteProgram"),
    Req("glCreateShader"),
    Req("glShaderSource"),
    Req("glCompileShader"),
    Req("glAttachShader"),
    Req("glDeleteShader"),
    Req("glDrawElements"),
    Req("glUniform1iv"),
    Req("glUniform1fv"),
    Req("glUniform2fv"),
    Req("glUniform3fv"),
    Req("glUniform4fv"),
    Req("glUniformMatrix4fv")
  ]

  /** The table has 34 entries; the five optional ones are the vertex
      attribute array switches, `glCopyBufferSubData` and the two mipmap
      generators. */
  lemma FunctionTable()
    ensures |FUNCTIONS| == 34
    ensures forall i :: 0 <= i < |FUNCTIONS| ==>
              (FUNCTIONS[i].severity == Optional <==> i == 6 || i == 7 || i == 11 || i == 15 || i == 16)
  {
  }

  /** What the check logs for entry `f`. */
  function StatusOf(f: GLFunc, present: string -> bool): Status
  {
    if present(f.name) then Available
    else if f.severity == Optional then MissingOptional
    else MissingRequired
  }

  /** An entry whose absence counts. */
  predicate RequiredAndMissing(f: GLFunc, present: string -> bool)
  {
    f.severity == Required && !present(f.name)
  }

  /** The number of required entries of `table` that are missing. */
  function CountMissing(table: seq<GLFunc>, present: string -> bool): (n: nat)
    ensures n <= |table|
  {
    if table == [] then 0
    else
      CountMissing(table[..|table| - 1], present)
        + if RequiredAndMissing(table[|table| - 1], present) then 1 else 0
  }

  /** No required entry is missing exactly when the count is zero. */
  lemma {:induction false} CountMissingZero(table: seq<GLFunc>, present: string -> bool)
    ensures CountMissing(table, present) == 0 <==>
            forall i :: 0 <= i < |table| ==> !RequiredAndMissing(table[i], present)
  {
    if table != [] {
      var init := table[..|table| - 1];
      CountMissingZero(init, present);
      assert forall i :: 0 <= i < |init| ==> init[i] == table[i];
    }
  }

  /** Optional entries never matter: two drivers that agree on every required
      entry give the same count. */
  lemma {:induction false} OptionalIrrelevant(table: seq<GLFunc>, p1: string -> bool, p2: string -> bool)
    requires forall i :: 0 <= i < |table| && table[i].severity == Required ==>
               p1(table[i].name) == p2(table[i].name)
    ensures CountMissing(table, p1) == CountMissing(table, p2)
  {
    if table != [] {
      var init := table[..|table| - 1];
      assert forall i :: 0 <= i < |init| ==> init[i] == table[i];
      OptionalIrrelevant(init, p1, p2);
    }
  }

  /** The loop of `initGLEW` over `table`: logs one status per entry, in
      order, and counts the missing required entries. */
  method CheckFunctions(table: seq<GLFunc>, present: string -> bool)
    returns (requiredFunctionsMissing: nat, report: seq<Status>)
    ensures |report| == |table|
    ensures forall i :: 0 <= i < |table| ==> report[i] == StatusOf(table[i], present)
    ensures requiredFunctionsMissing == CountMissing(table, present)
  {
    requiredFunctionsMissing := 0;
    report := [];
    var i := 0;
    while i < |table|
      invariant 0 <= i <= |table|
      invariant |report| == i
      invariant forall k :: 0 <= k < i ==> report[k] == StatusOf(table[k], present)
      invariant requiredFunctionsMissing == CountMissing(table[..i], present)
    {
      assert table[..i + 1][..i] == table[..i];
      var f := table[i];
      if present(f.name) {
        report := report + [Available];
      } else {
        if f.severity == Optional {
          report := report + [MissingOptional];
        } else {
          report := report + [MissingRequired];
          requiredFunctionsMissing := requiredFunctionsMissing + 1;
        }
      }
      i := i + 1;
    }
    assert table[..i] == table;
  }

  /** `initGLEW`: false without looking at the table when `glewInit` fails;
      otherwise true exactly when no required entry point is missing. */
  method InitGlew(glewOk: bool, present: string -> bool) returns (ok: bool, report: seq<Status>)
    ensures !glewOk ==> !ok && report == []
    ensures glewOk ==> |report| == |FUNCTIONS|
    ensures glewOk ==> forall i :: 0 <= i < |FUNCTIONS| ==> report[i] == StatusOf(FUNCTIONS[i], present)
    ensures glewOk ==> (ok <==> forall i :: 0 <= i < |FUNCTIONS| ==> !RequiredAndMissing(FUNCTIONS[i], present))
  {
    if !glewOk {
      return false, [];
    }
    var missing;
    missing, report := CheckFunctions(FUNCTIONS, present);
    CountMissingZero(FUNCTIONS, present);
    ok := missing == 0;
  }
}
