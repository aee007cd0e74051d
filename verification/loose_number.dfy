/** `asNumberLoose`: reads an amount out of a loosely-typed value. Strings
    are written with German separators ("1.234,56"); objects hide the
    amount under one of a fixed, ordered list of keys. JavaScript's
    `Number(string)` is a parameter `parse`, returning `None` where
    `Number` gives `NaN` or an infinity. */
module LooseNumber {
  import opened Base
  import opened JsonValue

  /** The keys probed inside an object, in order. */
  const ProbeKeys: seq<string> := ["netto", "value", "betrag", "amount"]

  /** `.replace(/\s/g, '')` */
  function DropSpaces(s: string): string {
    if s == [] then [] else (if IsSpace(s[0]) then [] else [s[0]]) + DropSpaces(s[1..])
  }

  /** `.replace(/\./g, '')` */
  function DropDots(s: string): string {
    if s == [] then [] else (if s[0] == '.' then [] else [s[0]]) + DropDots(s[1..])
  }

  /** `.replace(/,/g, '.')` */
  function CommasToDots(s: string): string {
    if s == [] then [] else [if s[0] == ',' then '.' else s[0]] + CommasToDots(s[1..])
  }

  /** The string cleaning before `Number`: whitespace out, thousands dots
      out, decimal comma to decimal point. */
  function Clean(s: string): string {
    CommasToDots(DropDots(DropSpaces(s)))
  }

  /** What one input character becomes in the cleaned string. */
  function CleanChar(c: char): string {
    if IsSpace(c) || c == '.' then [] else if c == ',' then "." else [c]
  }

  /** The three passes act character by character, so cleaning a
      concatenation cleans the parts. */
  lemma {:induction false} CleanCons(c: char, s: string)
    ensures Clean([c] + s) == CleanChar(c) + Clean(s)
  {
    var t := [c] + s;
    assert t[0] == c && t[1..] == s;
    var d := DropSpaces(s);
    if IsSpace(c) {
      assert DropSpaces(t) == d;
    } else {
      assert DropSpaces(t) == [c] + d;
      var u := [c] + d;
      assert u[0] == c && u[1..] == d;
      if c == '.' {
        assert DropDots(u) == DropDots(d);
      } else {
        assert DropDots(u) == [c] + DropDots(d);
        var w := [c] + DropDots(d);
        assert w[0] == c && w[1..] == DropDots(d);
        assert CommasToDots(w) == [if c == ',' then '.' else c] + CommasToDots(DropDots(d));
      }
    }
  }

  lemma {:induction false} CleanConcat(a: string, b: string)
    ensures Clean(a + b) == Clean(a) + Clean(b)
    decreases |a|
  {
    if a == [] {
      assert a + b == b;
    } else {
      assert a + b == [a[0]] + (a[1..] + b);
      assert a == [a[0]] + a[1..];
      CleanCons(a[0], a[1..] + b);
      CleanConcat(a[1..], b);
      CleanCons(a[0], a[1..]);
    }
  }

  /** The cleaned string has no whitespace and no comma, and is only as long
      as the characters that are not whitespace or dots. */
  lemma {:induction false} CleanShape(s: string)
    ensures forall i :: 0 <= i < |Clean(s)| ==> !IsSpace(Clean(s)[i]) && Clean(s)[i] != ','
    ensures |Clean(s)| <= |s|
    decreases |s|
  {
    if s != [] {
      assert s == [s[0]] + s[1..];
      CleanCons(s[0], s[1..]);
      CleanShape(s[1..]);
    }
  }

  /** A string without whitespace, dots or commas is left as it is. */
  lemma {:induction false} CleanPlain(s: string)
    requires forall i :: 0 <= i < |s| ==> !IsSpace(s[i]) && s[i] != '.' && s[i] != ','
    ensures Clean(s) == s
    decreases |s|
  {
    if s != [] {
      assert s == [s[0]] + s[1..];
      CleanCons(s[0], s[1..]);
      CleanPlain(s[1..]);
    }
  }

  /** `asNumberLoose(v)`. */
  function AsNumberLoose(v: Json, parse: string -> Option<real>): (r: Option<real>)
    ensures v.Null? || v.Bool? ==> r == None
    ensures v.Num? ==> r == Some(v.n)
    decreases v, 1
  {
    match v
    case Null => None
    case Bool(_) => None
    case Num(n) => Some(n)
    case Str(s) => parse(Clean(s))
    case Arr(_) => Probe(v, 0, parse)
    case Obj(_) => Probe(v, 0, parse)
  }

  /** The `for (const k of [...])` loop from key `i` on. */
  function Probe(v: Json, i: nat, parse: string -> Option<real>): Option<real>
    requires i <= |ProbeKeys|
    decreases v, 0, |ProbeKeys| - i
  {
    if i == |ProbeKeys| then None
    else
      var w := Get(v, ProbeKeys[i]);
      if w != Null then
        var n := AsNumberLoose(w, parse);
        if n.Some? then n else Probe(v, i + 1, parse)
      else
        Probe(v, i + 1, parse)
  }

  /** The amount found under key `k` of `v`, if any. */
  function AmountAt(v: Json, k: string, parse: string -> Option<real>): Option<real> {
    var w := Get(v, k);
    if w == Null then None else AsNumberLoose(w, parse)
  }

  lemma {:induction false} ProbeFirst(v: Json, i: nat, parse: string -> Option<real>)
    requires i <= |ProbeKeys|
    ensures Probe(v, i, parse).None? <==>
              forall j :: i <= j < |ProbeKeys| ==> AmountAt(v, ProbeKeys[j], parse).None?
    ensures forall j :: i <= j < |ProbeKeys| && AmountAt(v, ProbeKeys[j], parse).Some?
              && (forall j' :: i <= j' < j ==> AmountAt(v, ProbeKeys[j'], parse).None?)
              ==> Probe(v, i, parse) == AmountAt(v, ProbeKeys[j], parse)
    decreases |ProbeKeys| - i
  {
    if i < |ProbeKeys| {
      ProbeFirst(v, i + 1, parse);
    }
  }

  /** Cleaning a string of plain characters, then a dot, then plain
      characters, then a comma, then plain characters. */
  lemma CleanGerman(a: string, b: string, c: string)
    requires forall i :: 0 <= i < |a| ==> !IsSpace(a[i]) && a[i] != '.' && a[i] != ','
    requires forall i :: 0 <= i < |b| ==> !IsSpace(b[i]) && b[i] != '.' && b[i] != ','
    requires forall i :: 0 <= i < |c| ==> !IsSpace(c[i]) && c[i] != '.' && c[i] != ','
    ensures Clean(a + "." + b + "," + c) == a + b + "." + c
  {
    CleanPlain(a);
    CleanPlain(b);
    CleanPlain(c);
    CleanCons('.', []);
    CleanCons(',', []);
    assert Clean([]) == [];
    assert Clean(".") == [] && Clean(",") == ".";
    var s1 := a + ".";
    CleanConcat(a, ".");
    assert Clean(s1) == a;
    var s2 := s1 + b;
    CleanConcat(s1, b);
    assert Clean(s2) == a + b;
    var s3 := s2 + ",";
    CleanConcat(s2, ",");
    assert Clean(s3) == a + b + ".";
    CleanConcat(s3, c);
    assert Clean(s3 + c) == a + b + "." + c;
  }

  lemma CleanThousands()
    ensures Clean("1.234,56") == "1234.56"
  {
    CleanGerman("1", "234", "56");
    assert "1" + "." + "234" + "," + "56" == "1.234,56";
    assert "1" + "234" + "." + "56" == "1234.56";
  }

  /** Cleaning plain characters with a decimal comma, padded by blanks. */
  lemma CleanBlankPadded(a: string, b: string)
    requires forall i :: 0 <= i < |a| ==> !IsSpace(a[i]) && a[i] != '.' && a[i] != ','
    requires forall i :: 0 <= i < |b| ==> !IsSpace(b[i]) && b[i] != '.' && b[i] != ','
    ensures Clean(" " + a + "," + b + " ") == a + "." + b
  {
    CleanPlain(a);
    CleanPlain(b);
    CleanCons(' ', []);
    CleanCons(',', []);
    assert Clean([]) == [];
    assert Clean(" ") == [] && Clean(",") == ".";
    var s1 := " " + a;
    CleanConcat(" ", a);
    assert Clean(s1) == a;
    var s2 := s1 + ",";
    CleanConcat(s1, ",");
    assert Clean(s2) == a + ".";
    var s3 := s2 + b;
    CleanConcat(s2, b);
    assert Clean(s3) == a + "." + b;
    CleanConcat(s3, " ");
    assert Clean(s3 + " ") == a + "." + b;
  }

  lemma CleanPadded()
    ensures Clean(" 1234,56 ") == "1234.56"
  {
    CleanBlankPadded("1234", "56");
    assert " " + "1234" + "," + "56" + " " == " 1234,56 ";
    assert "1234" + "." + "56" == "1234.56";
  }

  /** A string is read as its cleaned text. */
  lemma StrReadsCleaned(s: string, t: string, parse: string -> Option<real>)
    requires Clean(s) == t
    ensures AsNumberLoose(Str(s), parse) == parse(t)
  {
  }

  /** Strings are cleaned, then parsed: "1.234,56" and " 1234,56 " read the same. */
  lemma GermanSeparators(parse: string -> Option<real>)
    ensures AsNumberLoose(Str("1.234,56"), parse) == parse("1234.56")
    ensures AsNumberLoose(Str(" 1234,56 "), parse) == parse("1234.56")
  {
    CleanThousands();
    StrReadsCleaned("1.234,56", "1234.56", parse);
    CleanPadded();
    StrReadsCleaned(" 1234,56 ", "1234.56", parse);
  }

  /** Inside an object the first of `netto`, `value`, `betrag`, `amount`
      that yields an amount wins; keys that are missing, `null` or not
      convertible are skipped, and if none yields one the result is `None`. */
  lemma ObjectProbeOrder(v: Json, parse: string -> Option<real>)
    requires v.Obj?
    ensures AsNumberLoose(v, parse).None? <==>
              forall j :: 0 <= j < |ProbeKeys| ==> AmountAt(v, ProbeKeys[j], parse).None?
    ensures forall j :: 0 <= j < |ProbeKeys| && AmountAt(v, ProbeKeys[j], parse).Some?
              && (forall j' :: 0 <= j' < j ==> AmountAt(v, ProbeKeys[j'], parse).None?)
              ==> AsNumberLoose(v, parse) == AmountAt(v, ProbeKeys[j], parse)
  {
    ProbeFirst(v, 0, parse);
  }

  /** An object carrying none of the probed keys has no amount. */
  lemma NoProbedKey(fields: seq<(string, Json)>, parse: string -> Option<real>)
    requires forall i :: 0 <= i < |fields| ==> fields[i].0 !in ProbeKeys
    ensures AsNumberLoose(Obj(fields), parse) == None
  {
    ObjectProbeOrder(Obj(fields), parse);
    forall j | 0 <= j < |ProbeKeys|
      ensures AmountAt(Obj(fields), ProbeKeys[j], parse).None?
    {
      assert FieldOf(fields, ProbeKeys[j]).None?;
    }
  }

  /** A last `netto` entry that yields an amount is the object's amount. */
  lemma NettoWins(rest: seq<(string, Json)>, w: Json, parse: string -> Option<real>)
    requires w != Null && AsNumberLoose(w, parse).Some?
    ensures AsNumberLoose(Obj(rest + [("netto", w)]), parse) == AsNumberLoose(w, parse)
  {
    var v := Obj(rest + [("netto", w)]);
    assert Get(v, "netto") == w;
    ObjectProbeOrder(v, parse);
    assert AmountAt(v, ProbeKeys[0], parse).Some?;
  }

  /** A `netto` entry written as a German string is read through the cleaning. */
  lemma NestedNetto(rest: seq<(string, Json)>, parse: string -> Option<real>)
    requires parse("1234.56").Some?
    ensures AsNumberLoose(Obj(rest + [("netto", Str("1.234,56"))]), parse) == parse("1234.56")
  {
    CleanThousands();
    StrReadsCleaned("1.234,56", "1234.56", parse);
    NettoWins(rest, Str("1.234,56"), parse);
  }
}
