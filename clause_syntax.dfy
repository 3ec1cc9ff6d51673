/** The text of the clauses `StructuredSearch` renders, in CloudSearch's
    structured syntax, and a reader for leaf clauses that shows the rendering
    carries every argument through intact. */
module ClauseSyntax {
  import opened Wrappers
  import opened Php
  import opened Escaping

  /** `name='value' ` when the argument is truthy, nothing otherwise. */
  function Attr(name: string, v: Value): string {
    if Truthy(v) then name + "='" + Interpolate(v) + "' " else ""
  }

  function Attrs(attrs: seq<(string, Value)>): string {
    if attrs == [] then "" else Attr(attrs[0].0, attrs[0].1) + Attrs(attrs[1..])
  }

  /** `text` with the attributes appended one after the other. */
  function AppendAttrs(text: string, attrs: seq<(string, Value)>): string
    decreases attrs
  {
    if attrs == [] then text else AppendAttrs(text + Attr(attrs[0].0, attrs[0].1), attrs[1..])
  }

  /** `(kind attr='…' … 'value')`: the text of `term`, `phrase`, `prefix` and
      `near`, with the attributes in the order given. */
  function LeafText(kind: string, attrs: seq<(string, Value)>, value: Value): string {
    AppendAttrs("(" + kind + " ", attrs) + ("'" + Interpolate(value) + "')")
  }

  lemma {:induction false} AppendAttrsIsConcat(text: string, attrs: seq<(string, Value)>)
    ensures AppendAttrs(text, attrs) == text + Attrs(attrs)
    decreases attrs
  {
    if attrs != [] {
      var a := Attr(attrs[0].0, attrs[0].1);
      AppendAttrsIsConcat(text + a, attrs[1..]);
      assert text + a + Attrs(attrs[1..]) == text + (a + Attrs(attrs[1..]));
    }
  }

  /** The same arguments after `__call` has escaped them. */
  function EscapeAttrs(attrs: seq<(string, Value)>): (r: seq<(string, Value)>)
    ensures |r| == |attrs|
    ensures forall i | 0 <= i < |attrs| :: r[i] == (attrs[i].0, EscapeArg(attrs[i].1))
  {
    if attrs == [] then [] else [(attrs[0].0, EscapeArg(attrs[0].1))] + EscapeAttrs(attrs[1..])
  }

  /** The attributes a reader finds in a leaf: the truthy ones, as text. */
  function Present(attrs: seq<(string, Value)>): seq<(string, string)> {
    if attrs == [] then []
    else (if Truthy(attrs[0].1) then [(attrs[0].0, Interpolate(attrs[0].1))] else []) + Present(attrs[1..])
  }

  /** A parsed leaf clause. */
  datatype Leaf = Leaf(kind: string, attrs: seq<(string, string)>, value: string)

  /** A clause keyword or attribute name: non-empty, no blank, `=` or quote. */
  predicate Word(s: string) {
    s != [] && forall i | 0 <= i < |s| :: s[i] != ' ' && s[i] != '=' && s[i] != '\''
  }

  /** The text before the first `stop` and the text after it. */
  function ReadUntil(t: string, stop: char): (r: Option<(string, string)>)
    ensures r.Some? ==> |r.value.1| < |t|
  {
    if t == [] then None
    else if t[0] == stop then Some(([], t[1..]))
    else
      match ReadUntil(t[1..], stop)
      case None => None
      case Some(p) => Some(([t[0]] + p.0, p.1))
  }

  /** Reads `name='v' ` attributes up to the quoted value; returns them, the
      value and the text after the value's closing quote. */
  function ReadAttrs(t: string): Option<(seq<(string, string)>, string, string)>
    decreases |t|
  {
    if t == [] then None
    else if t[0] == '\'' then
      match ReadQuoted(t[1..])
      case None => None
      case Some(p) => Some(([], p.0, p.1))
    else
      match ReadUntil(t, '=')
      case None => None
      case Some(nameRest) =>
        var afterEq := nameRest.1;
        if afterEq == [] || afterEq[0] != '\'' then None
        else
          match ReadQuoted(afterEq[1..])
          case None => None
          case Some(vRest) =>
            var rest := vRest.1;
            if rest == [] || rest[0] != ' ' then None
            else
              match ReadAttrs(rest[1..])
              case None => None
              case Some(more) => Some(([(nameRest.0, vRest.0)] + more.0, more.1, more.2))
  }

  /** Reads one whole leaf clause. */
  function ParseLeaf(t: string): Option<Leaf> {
    if t == [] || t[0] != '(' then None
    else
      match ReadUntil(t[1..], ' ')
      case None => None
      case Some(kindRest) =>
        match ReadAttrs(kindRest.1)
        case None => None
        case Some(body) => if body.2 == ")" then Some(Leaf(kindRest.0, body.0, body.1)) else None
  }

  lemma {:induction false} ReadUntilWord(w: string, stop: char, rest: string)
    requires forall i | 0 <= i < |w| :: w[i] != stop
    ensures ReadUntil(w + [stop] + rest, stop) == Some((w, rest))
  {
    if w != [] {
      ReadUntilWord(w[1..], stop, rest);
      assert (w + [stop] + rest)[1..] == w[1..] + [stop] + rest;
      assert [w[0]] + w[1..] == w;
    }
  }

  /** Reading the quoted value that ends the attribute list. */
  lemma ReadAttrsValue(value: string, tail: string)
    ensures ReadAttrs("'" + Escape(value) + "'" + tail) == Some(([], value, tail))
  {
    var t := "'" + Escape(value) + "'" + tail;
    assert t[1..] == Escape(value) + "'" + tail;
    ReadEscaped(value, tail);
  }

  /** Reading one escaped attribute in front of the rest of the list. */
  lemma ReadAttrsStep(name: string, av: string, later: string)
    requires Word(name)
    ensures ReadAttrs(name + "='" + Escape(av) + "' " + later)
         == match ReadAttrs(later)
            case None => None
            case Some(more) => Some(([(name, av)] + more.0, more.1, more.2))
  {
    var afterEq := "'" + Escape(av) + "' " + later;
    var t := name + "='" + Escape(av) + "' " + later;
    assert t == name + ['='] + afterEq;
    ReadUntilWord(name, '=', afterEq);
    assert t[0] == name[0];
    assert afterEq[1..] == Escape(av) + "'" + (" " + later);
    ReadEscaped(av, " " + later);
    assert (" " + later)[1..] == later;
  }

  lemma AttrsEscapedCons(attrs: seq<(string, Value)>, last: string)
    requires attrs != []
    ensures Attrs(EscapeAttrs(attrs)) + last
         == (if Truthy(attrs[0].1) then attrs[0].0 + "='" + Escape(Interpolate(attrs[0].1)) + "' " else "")
            + (Attrs(EscapeAttrs(attrs[1..])) + last)
    ensures Present(attrs)
         == (if Truthy(attrs[0].1) then [(attrs[0].0, Interpolate(attrs[0].1))] else []) + Present(attrs[1..])
  {
    var ea := EscapeAttrs(attrs);
    assert ea[1..] == EscapeAttrs(attrs[1..]);
    InterpolateEscapeArg(attrs[0].1);
  }

  lemma {:induction false} ReadAttrsEscaped(attrs: seq<(string, Value)>, value: string, tail: string)
    requires forall i | 0 <= i < |attrs| :: Word(attrs[i].0)
    ensures ReadAttrs(Attrs(EscapeAttrs(attrs)) + ("'" + Escape(value) + "'" + tail))
         == Some((Present(attrs), value, tail))
  {
    var last := "'" + Escape(value) + "'" + tail;
    if attrs == [] {
      assert Attrs(EscapeAttrs(attrs)) + last == last;
      ReadAttrsValue(value, tail);
    } else {
      ReadAttrsEscaped(attrs[1..], value, tail);
      AttrsEscapedCons(attrs, last);
      if Truthy(attrs[0].1) {
        ReadAttrsStep(attrs[0].0, Interpolate(attrs[0].1), Attrs(EscapeAttrs(attrs[1..])) + last);
      } else {
        assert Attrs(EscapeAttrs(attrs)) + last == Attrs(EscapeAttrs(attrs[1..])) + last;
        assert Present(attrs) == Present(attrs[1..]);
      }
    }
  }

  lemma ParseLeafShape(kind: string, body: string)
    requires Word(kind)
    ensures ParseLeaf("(" + (kind + [' '] + body))
         == match ReadAttrs(body)
            case None => None
            case Some(b) => if b.2 == ")" then Some(Leaf(kind, b.0, b.1)) else None
  {
    var t := "(" + (kind + [' '] + body);
    assert t[1..] == kind + [' '] + body;
    ReadUntilWord(kind, ' ', body);
  }

  lemma LeafTextSplit(kind: string, a: string, v: string)
    ensures "(" + kind + " " + a + ("'" + v + "')") == "(" + (kind + [' '] + (a + ("'" + v + "'" + ")")))
  {
    assert "')" == "'" + ")";
  }

  /** Round trip of a leaf clause: whatever the arguments, once escaped the
      rendered clause reads back as its kind, its truthy attributes in order
      and its value, each exactly as the caller passed it. */
  lemma ParseLeafText(kind: string, attrs: seq<(string, Value)>, v: Value)
    requires Word(kind)
    requires forall i | 0 <= i < |attrs| :: Word(attrs[i].0)
    ensures ParseLeaf(LeafText(kind, EscapeAttrs(attrs), EscapeArg(v)))
         == Some(Leaf(kind, Present(attrs), Interpolate(v)))
  {
    InterpolateEscapeArg(v);
    var value := Interpolate(v);
    var body := Attrs(EscapeAttrs(attrs)) + ("'" + Escape(value) + "'" + ")");
    AppendAttrsIsConcat("(" + kind + " ", EscapeAttrs(attrs));
    LeafTextSplit(kind, Attrs(EscapeAttrs(attrs)), Escape(value));
    ParseLeafShape(kind, body);
    ReadAttrsEscaped(attrs, value, ")");
  }

  /** The bracketed bounds of `range`: a square bracket for a truthy bound,
      a curly brace with nothing for an omitted one, and no clause at all
      when neither bound is truthy. */
  function RangeBounds(min: Value, max: Value): (r: Option<string>)
    ensures r.None? <==> !Truthy(min) && !Truthy(max)
  {
    if Truthy(min) && !Truthy(max) then Some("[" + Interpolate(min) + ",}")
    else if !Truthy(min) && Truthy(max) then Some("{," + Interpolate(max) + "]")
    else if Truthy(min) && Truthy(max) then Some("[" + Interpolate(min) + "," + Interpolate(max) + "]")
    else None
  }

  /** `(range field=F bounds)`: the field is written without quotes. */
  function RangeText(field: Value, bounds: string): string {
    "(range field=" + Interpolate(field) + " " + bounds + ")"
  }

  /** One side of a range as CloudSearch reads it. */
  datatype Bound = Open | Closed(at: string)

  /** CloudSearch's reading of a bounds text: `[` or `]` encloses an included
      bound, `{` or `}` an omitted one, which must then be empty. */
  function ParseBounds(b: string): Option<(Bound, Bound)> {
    if |b| < 3 || (b[0] != '[' && b[0] != '{') || (b[|b| - 1] != ']' && b[|b| - 1] != '}') then None
    else
      match ReadUntil(b[1..|b| - 1], ',')
      case None => None
      case Some(p) =>
        if (b[0] == '{' && p.0 != []) || (b[|b| - 1] == '}' && p.1 != []) then None
        else Some((if b[0] == '[' then Closed(p.0) else Open, if b[|b| - 1] == ']' then Closed(p.1) else Open))
  }

  predicate NoComma(s: string) {
    forall i | 0 <= i < |s| :: s[i] != ','
  }

  function BoundOf(v: Value): Bound {
    if Truthy(v) then Closed(Interpolate(v)) else Open
  }

  lemma ParseBoundsShape(open: char, lo: string, hi: string, close: char)
    requires open == '[' || (open == '{' && lo == [])
    requires close == ']' || (close == '}' && hi == [])
    requires NoComma(lo)
    ensures ParseBounds([open] + (lo + [','] + hi) + [close])
         == Some((if open == '[' then Closed(lo) else Open, if close == ']' then Closed(hi) else Open))
  {
    var b := [open] + (lo + [','] + hi) + [close];
    assert b[1..|b| - 1] == lo + [','] + hi;
    ReadUntilWord(lo, ',', hi);
  }

  /** The rendered bounds read back as the truthy bounds included and the
      falsy ones open (a lower bound must not hold a comma). */
  lemma RangeBoundsRead(min: Value, max: Value)
    requires Truthy(min) || Truthy(max)
    requires NoComma(Interpolate(min))
    ensures ParseBounds(RangeBounds(min, max).value) == Some((BoundOf(min), BoundOf(max)))
  {
    var lo, hi := Interpolate(min), Interpolate(max);
    if Truthy(min) && Truthy(max) {
      BothBoundsShape(lo, hi);
    } else if Truthy(min) {
      LowerBoundShape(lo);
    } else {
      UpperBoundShape(hi);
    }
  }

  lemma BothBoundsShape(lo: string, hi: string)
    requires NoComma(lo)
    ensures ParseBounds("[" + lo + "," + hi + "]") == Some((Closed(lo), Closed(hi)))
  {
    assert "[" + lo + "," + hi + "]" == ['['] + (lo + [','] + hi) + [']'];
    ParseBoundsShape('[', lo, hi, ']');
  }

  lemma LowerBoundShape(lo: string)
    requires NoComma(lo)
    ensures ParseBounds("[" + lo + ",}") == Some((Closed(lo), Open))
  {
    assert "[" + lo + ",}" == ['['] + (lo + [','] + []) + ['}'];
    ParseBoundsShape('[', lo, [], '}');
  }

  lemma UpperBoundShape(hi: string)
    ensures ParseBounds("{," + hi + "]") == Some((Open, Closed(hi)))
  {
    assert "{," + hi + "]" == ['{'] + ([] + [','] + hi) + [']'];
    ParseBoundsShape('{', [], hi, ']');
  }
}
