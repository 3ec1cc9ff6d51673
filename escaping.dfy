/** The escaping `StructuredSearch::__call` applies to every string argument of
    a leaf clause, and the reader CloudSearch's structured syntax applies to a
    quoted literal: inside `'…'` a backslash takes the next character
    literally and an unescaped quote ends the literal. */
module Escaping {
  import opened Wrappers
  import opened Php

  /** First `preg_replace` of `__call`: every backslash doubled. */
  function EscapeBackslashes(s: string): string {
    if s == [] then [] else (if s[0] == '\\' then "\\\\" else [s[0]]) + EscapeBackslashes(s[1..])
  }

  /** Second `preg_replace` of `__call`: every single quote preceded by a backslash. */
  function EscapeQuotes(s: string): string {
    if s == [] then [] else (if s[0] == '\'' then "\\'" else [s[0]]) + EscapeQuotes(s[1..])
  }

  /** The two passes in the order `__call` runs them: backslashes first.
      This equals escaping each character on its own. */
  function Escape(s: string): (r: string)
    ensures r == EscapeEach(s)
  {
    EscapeIsOnePass(s);
    EscapeQuotes(EscapeBackslashes(s))
  }

  /** Reference definition: each character escaped on its own, in one pass. */
  function EscapeChar(c: char): (r: string)
    ensures r != []
  {
    if c == '\\' then "\\\\" else if c == '\'' then "\\'" else [c]
  }

  function EscapeEach(s: string): (r: string)
    ensures |r| >= |s|
  {
    if s == [] then [] else EscapeChar(s[0]) + EscapeEach(s[1..])
  }

  lemma {:induction false} EscapeQuotesAppend(a: string, b: string)
    ensures EscapeQuotes(a + b) == EscapeQuotes(a) + EscapeQuotes(b)
  {
    if a == [] {
      assert a + b == b;
    } else {
      assert (a + b)[1..] == a[1..] + b;
      EscapeQuotesAppend(a[1..], b);
    }
  }

  /** Running the backslash pass first means the quote pass never sees a
      backslash it inserted itself: the two passes equal one pass that
      escapes every character independently. */
  lemma {:induction false} EscapeIsOnePass(s: string)
    ensures EscapeQuotes(EscapeBackslashes(s)) == EscapeEach(s)
  {
    if s != [] {
      var head := if s[0] == '\\' then "\\\\" else [s[0]];
      assert EscapeBackslashes(s) == head + EscapeBackslashes(s[1..]);
      EscapeQuotesAppend(head, EscapeBackslashes(s[1..]));
      EscapeIsOnePass(s[1..]);
      assert EscapeQuotes(head) == EscapeChar(s[0]) by {
        if s[0] == '\\' {
          assert EscapeQuotes(head) == "\\" + EscapeQuotes("\\");
        } else {
          assert EscapeQuotes(head) == EscapeChar(s[0]) + EscapeQuotes([]);
        }
      }
      assert EscapeEach(s) == EscapeChar(s[0]) + EscapeEach(s[1..]);
    }
  }

  /** Reads the body of a quoted literal whose opening quote has been consumed:
      the literal's value and the text after its closing quote, or `None`
      when the literal is not terminated. */
  function ReadQuoted(t: string): (r: Option<(string, string)>)
    ensures r.Some? ==> |r.value.1| < |t|
    decreases |t|
  {
    if t == [] then None
    else if t[0] == '\'' then Some(([], t[1..]))
    else if t[0] == '\\' then
      if |t| < 2 then None
      else
        match ReadQuoted(t[2..])
        case None => None
        case Some(p) => Some(([t[1]] + p.0, p.1))
    else
      match ReadQuoted(t[1..])
      case None => None
      case Some(p) => Some(([t[0]] + p.0, p.1))
  }

  /** Round trip: an escaped string followed by a quote reads back as exactly
      the original string, and reading stops right after that quote. */
  lemma {:induction false} ReadEscaped(s: string, rest: string)
    ensures ReadQuoted(Escape(s) + "'" + rest) == Some((s, rest))
  {
    EscapeIsOnePass(s);
    ReadEachEscaped(s, rest);
  }

  lemma {:induction false} ReadEachEscaped(s: string, rest: string)
    ensures ReadQuoted(EscapeEach(s) + "'" + rest) == Some((s, rest))
  {
    var t := EscapeEach(s) + "'" + rest;
    if s == [] {
      assert t == "'" + rest;
    } else {
      ReadEachEscaped(s[1..], rest);
      var c := EscapeChar(s[0]);
      assert t == c + (EscapeEach(s[1..]) + "'" + rest);
      if s[0] == '\\' || s[0] == '\'' {
        assert t[2..] == EscapeEach(s[1..]) + "'" + rest;
      } else {
        assert t[1..] == EscapeEach(s[1..]) + "'" + rest;
      }
      assert [s[0]] + s[1..] == s;
    }
  }

  /** Text holding neither a backslash nor a quote is left as it is. */
  lemma {:induction false} EscapePlain(s: string)
    requires forall i | 0 <= i < |s| :: s[i] != '\\' && s[i] != '\''
    ensures Escape(s) == s
  {
    EscapeIsOnePass(s);
    EachPlain(s);
  }

  lemma {:induction false} EachPlain(s: string)
    requires forall i | 0 <= i < |s| :: s[i] != '\\' && s[i] != '\''
    ensures EscapeEach(s) == s
  {
    if s != [] {
      EachPlain(s[1..]);
      assert [s[0]] + s[1..] == s;
    }
  }

  /** Escaping neither creates nor removes PHP falsiness: it maps "" to ""
      and "0" to "0", and nothing else to either. */
  lemma EscapeKeepsFalsy(s: string)
    ensures Escape(s) == "" <==> s == ""
    ensures Escape(s) == "0" <==> s == "0"
  {
    EscapeIsOnePass(s);
    if |s| == 1 {
      assert EscapeEach(s) == EscapeChar(s[0]) + EscapeEach([]);
    }
    if s == "0" {
      EachPlain(s);
    }
  }

  /** The argument rewriting of `__call`: strings are escaped, every other
      value passes through untouched. */
  function EscapeArg(v: Value): (r: Value)
    ensures !v.Str? ==> r == v
    ensures r.Str? <==> v.Str?
  {
    match v
    case Str(s) => Str(Escape(s))
    case _ => v
  }

  lemma DigitsArePlain(s: string)
    requires forall k | 0 <= k < |s| :: IsDigit(s[k]) || s[k] == '-'
    ensures Escape(s) == s
  {
    EscapePlain(s);
  }

  /** Escaping an argument then interpolating it is interpolating then
      escaping: a leaf clause carries the escaped text of every argument. */
  lemma InterpolateEscapeArg(v: Value)
    ensures Interpolate(EscapeArg(v)) == Escape(Interpolate(v))
    ensures Truthy(EscapeArg(v)) == Truthy(v)
  {
    match v
    case Str(s) => EscapeKeepsFalsy(s);
    case Int(i) => DigitsArePlain(IntToString(i));
    case Bool(b) => EscapePlain(if b then "1" else "");
    case Null => EscapePlain("");
    case Arr(_) => EscapePlain("Array");
  }

  /** `__call`'s `foreach` over its arguments, rewriting each in place. */
  method EscapeArgs(args: seq<Value>) returns (escaped: seq<Value>)
    ensures |escaped| == |args|
    ensures forall i | 0 <= i < |args| :: escaped[i] == EscapeArg(args[i])
  {
    escaped := args;
    var i := 0;
    while i < |escaped|
      invariant 0 <= i <= |escaped| == |args|
      invariant forall j | 0 <= j < i :: escaped[j] == EscapeArg(args[j])
      invariant forall j | i <= j < |args| :: escaped[j] == args[j]
    {
      if escaped[i].Str? {
        var value := EscapeBackslashes(escaped[i].s);
        value := EscapeQuotes(value);
        escaped := escaped[i := Str(value)];
      }
      i := i + 1;
    }
  }
}
