/** Prompt templates as the evaluator uses them: a template is its text, and
    formatting fills each `{name}` field from keyword arguments the way
    Python's `str.format` does (`{{` and `}}` stand for literal braces). */
module PromptTemplates {
  import opened Wrappers

  datatype PromptTemplate = PromptTemplate(template: string)

  /** `MissingField` is Python's `KeyError`; `Malformed` its `ValueError`
      for a lone `}`, an unterminated field or a `{` inside a field name. */
  datatype FormatError = MissingField(name: string) | Malformed

  predicate IsBrace(c: char) { c == '{' || c == '}' }

  ghost predicate BraceFree(s: string)
  {
    forall k :: 0 <= k < |s| ==> !IsBrace(s[k])
  }

  /** Position of the first brace at or after `i`. */
  function BraceFrom(t: string, i: nat): (r: Option<nat>)
    requires i <= |t|
    ensures r.None? ==> forall k :: i <= k < |t| ==> !IsBrace(t[k])
    ensures r.Some? ==> i <= r.value < |t| && IsBrace(t[r.value])
    ensures r.Some? ==> forall k :: i <= k < r.value ==> !IsBrace(t[k])
    decreases |t| - i
  {
    if i == |t| then None
    else if IsBrace(t[i]) then Some(i)
    else BraceFrom(t, i + 1)
  }

  /** `template.format(**vars)`: scans the text left to right and stops at
      the first error. The whole text between braces is the field's key. */
  function Format(t: string, vars: map<string, string>): Result<string, FormatError>
    decreases |t|
  {
    if |t| == 0 then Success("")
    else if t[0] == '{' then
      if |t| >= 2 && t[1] == '{' then Prepend("{", Format(t[2..], vars))
      else match BraceFrom(t, 1)
        case None => Failure(Malformed)
        case Some(j) =>
          if t[j] == '{' then Failure(Malformed)
          else if t[1..j] in vars then Prepend(vars[t[1..j]], Format(t[j + 1..], vars))
          else Failure(MissingField(t[1..j]))
    else if t[0] == '}' then
      if |t| >= 2 && t[1] == '}' then Prepend("}", Format(t[2..], vars))
      else Failure(Malformed)
    else Prepend([t[0]], Format(t[1..], vars))
  }

  /** Reference meaning of a template: literal text and named slots. */
  datatype Segment = Lit(text: string) | Slot(name: string)

  ghost predicate ValidSlots(segs: seq<Segment>)
  {
    forall i :: 0 <= i < |segs| && segs[i].Slot? ==> BraceFree(segs[i].name)
  }

  /** Fills each slot from `vars`; the first slot without a value is the error. */
  function Render(segs: seq<Segment>, vars: map<string, string>): Result<string, FormatError>
    decreases |segs|
  {
    if |segs| == 0 then Success("")
    else match segs[0]
      case Lit(s) => Prepend(s, Render(segs[1..], vars))
      case Slot(n) =>
        if n in vars then Prepend(vars[n], Render(segs[1..], vars))
        else Failure(MissingField(n))
  }

  /** Literal text with every brace doubled. */
  function Escape(s: string): string
    decreases |s|
  {
    if |s| == 0 then ""
    else (if IsBrace(s[0]) then [s[0], s[0]] else [s[0]]) + Escape(s[1..])
  }

  function EncodeSegment(g: Segment): string
  {
    match g
    case Lit(s) => Escape(s)
    case Slot(n) => "{" + n + "}"
  }

  /** The template text that stands for the segments. */
  function Encode(segs: seq<Segment>): string
    decreases |segs|
  {
    if |segs| == 0 then "" else EncodeSegment(segs[0]) + Encode(segs[1..])
  }

  lemma {:induction false} FormatEscaped(s: string, rest: string, vars: map<string, string>)
    ensures Format(Escape(s) + rest, vars) == Prepend(s, Format(rest, vars))
    decreases |s|
  {
    if |s| > 0 {
      var t := Escape(s) + rest;
      var tail := Escape(s[1..]) + rest;
      FormatEscaped(s[1..], rest, vars);
      PrependPrepend([s[0]], s[1..], Format(rest, vars));
      assert [s[0]] + s[1..] == s;
      if IsBrace(s[0]) {
        assert t == [s[0], s[0]] + tail;
        assert t[0] == t[1] == s[0] && t[2..] == tail;
        assert Format(t, vars) == Prepend([s[0]], Format(tail, vars));
      } else {
        assert t == [s[0]] + tail;
        assert t[0] == s[0] && t[1..] == tail;
        assert Format(t, vars) == Prepend([s[0]], Format(tail, vars));
      }
      calc {
        Format(t, vars);
        Prepend([s[0]], Format(tail, vars));
        Prepend([s[0]], Prepend(s[1..], Format(rest, vars)));
        Prepend([s[0]] + s[1..], Format(rest, vars));
      }
    } else {
      assert Escape(s) + rest == rest;
      if Format(rest, vars).Success? {
        assert s + Format(rest, vars).value == Format(rest, vars).value;
      }
    }
  }

  lemma FormatSlot(n: string, rest: string, vars: map<string, string>)
    requires BraceFree(n)
    ensures Format("{" + n + "}" + rest, vars)
         == if n in vars then Prepend(vars[n], Format(rest, vars)) else Failure(MissingField(n))
  {
    var t := "{" + n + "}" + rest;
    var j := |n| + 1;
    assert t[j] == '}';
    assert forall k :: 1 <= k < j ==> t[k] == n[k - 1];
    assert BraceFrom(t, 1) == Some(j);
    assert t[1..j] == n;
    assert t[j + 1..] == rest;
  }

  /** Formatting the text of a template gives exactly its reference meaning:
      the escapes and fields are read back as the segments they encode. */
  lemma {:induction false} FormatEncoded(segs: seq<Segment>, vars: map<string, string>)
    requires ValidSlots(segs)
    ensures Format(Encode(segs), vars) == Render(segs, vars)
    decreases |segs|
  {
    if |segs| > 0 {
      assert ValidSlots(segs[1..]) by {
        forall i | 0 <= i < |segs[1..]| && segs[1..][i].Slot?
          ensures BraceFree(segs[1..][i].name)
        {
          assert segs[1..][i] == segs[i + 1];
        }
      }
      FormatEncoded(segs[1..], vars);
      match segs[0]
      case Lit(s) =>
        FormatEscaped(s, Encode(segs[1..]), vars);
      case Slot(n) =>
        assert BraceFree(segs[0].name);
        assert Encode(segs) == "{" + n + "}" + Encode(segs[1..]);
        FormatSlot(n, Encode(segs[1..]), vars);
    }
  }

  lemma {:induction false} EscapeBraceFree(s: string)
    requires BraceFree(s)
    ensures Escape(s) == s
    decreases |s|
  {
    if |s| > 0 {
      EscapeBraceFree(s[1..]);
    }
  }

  /** Literal text without braces is copied through to the output. */
  lemma FormatPlainPrefix(s: string, rest: string, vars: map<string, string>)
    requires BraceFree(s)
    ensures Format(s + rest, vars) == Prepend(s, Format(rest, vars))
  {
    EscapeBraceFree(s);
    FormatEscaped(s, rest, vars);
  }

  lemma BraceFreeConcat(a: string, b: string)
    requires BraceFree(a) && BraceFree(b)
    ensures BraceFree(a + b)
  {
    forall k | 0 <= k < |a + b|
      ensures !IsBrace((a + b)[k])
    {
      if k >= |a| {
        assert (a + b)[k] == b[k - |a|];
      }
    }
  }

  /** A text without braces has no fields: it formats to itself whatever the arguments. */
  lemma FormatVerbatim(s: string, vars: map<string, string>)
    requires BraceFree(s)
    ensures Format(s, vars) == Success(s)
  {
    EscapeBraceFree(s);
    FormatEscaped(s, "", vars);
    assert s + "" == s;
  }
}
