/**
  http.Header and the name functions of the Go library that the translations rely on:
  textproto.CanonicalMIMEHeaderKey and strings.EqualFold against an ASCII name.
 */
module HeaderMap {
  import opened Tunnel

  type Header = map<string, seq<string>>

  predicate Lower(c: char) { 'a' <= c <= 'z' }

  predicate Upper(c: char) { 'A' <= c <= 'Z' }

  function ToUpper(c: char): char {
    if Lower(c) then (c as int - 'a' as int + 'A' as int) as char else c
  }

  function ToLower(c: char): char {
    if Upper(c) then (c as int - 'A' as int + 'a' as int) as char else c
  }

  /** A character of a field name (section 5.6.2 of RFC 9110). */
  predicate TokenChar(c: char) {
    Lower(c) || Upper(c) || '0' <= c <= '9' || c in "!#$%&'*+-.^_`|~"
  }

  function Recased(s: string, upper: bool): string {
    if s == [] then []
    else [if upper then ToUpper(s[0]) else ToLower(s[0])] + Recased(s[1..], s[0] == '-')
  }

  /** A name with a character no field name has is left alone. */
  function Canonical(name: string): string {
    if forall i :: 0 <= i < |name| ==> TokenChar(name[i]) then Recased(name, true) else name
  }

  /** Simple case folding, as far as it can matter when compared with ASCII letters. */
  function FoldChar(c: char): char {
    if c == '\U{017F}' then 's' else if c == '\U{212A}' then 'k' else ToLower(c)
  }

  function Fold(s: string): string {
    seq(|s|, i requires 0 <= i < |s| => FoldChar(s[i]))
  }

  predicate EqualFold(a: string, b: string) {
    Fold(a) == Fold(b)
  }

  lemma {:induction false} RecasedAgain(s: string, upper: bool)
    ensures |Recased(s, upper)| == |s|
    ensures Recased(Recased(s, upper), upper) == Recased(s, upper)
    ensures (forall i :: 0 <= i < |s| ==> TokenChar(s[i]))
        ==> forall i :: 0 <= i < |s| ==> TokenChar(Recased(s, upper)[i])
  {
    if s != [] {
      RecasedAgain(s[1..], s[0] == '-');
      var r := Recased(s, upper);
      assert r[1..] == Recased(s[1..], s[0] == '-');
      assert r[0] == '-' <==> s[0] == '-';
      if forall i :: 0 <= i < |s| ==> TokenChar(s[i]) {
        assert forall i :: 0 <= i < |s[1..]| ==> s[1..][i] == s[i + 1];
        assert forall i :: 1 <= i < |s| ==> r[i] == r[1..][i - 1];
        assert TokenChar(r[0]);
      }
    }
  }

  lemma CanonicalIsCanonical(name: string)
    ensures Canonical(Canonical(name)) == Canonical(name)
  {
    RecasedAgain(name, true);
  }

  /** Header.Add. */
  function Added(m: Header, name: string, value: string): Header {
    var key := Canonical(name);
    m[key := (if key in m then m[key] else []) + [value]]
  }

  function AddedAll(m: Header, name: string, values: seq<string>): Header
    decreases |values|
  {
    if values == [] then m else AddedAll(Added(m, name, values[0]), name, values[1..])
  }

  /** The two nested loops over a list of headers. */
  function Filled(m: Header, hs: seq<HttpHeader>): Header
    decreases |hs|
  {
    if hs == [] then m else Filled(AddedAll(m, hs[0].name, hs[0].values), hs[1..])
  }

  class HttpHeaders {
    var m: Header

    constructor ()
      ensures m == map[]
    {
      m := map[];
    }

    method Add(name: string, value: string)
      modifies this
      ensures m == Added(old(m), name, value)
    {
      var key := Canonical(name);
      m := m[key := (if key in m then m[key] else []) + [value]];
    }

    method Del(name: string)
      modifies this
      ensures m == old(m) - {Canonical(name)}
    {
      m := m - {Canonical(name)};
    }

    /** Adds the values of one name, in order. */
    method AddValues(name: string, values: seq<string>)
      modifies this
      ensures m == AddedAll(old(m), name, values)
    {
      var i := 0;
      assert values[0..] == values;
      while i < |values|
        invariant 0 <= i <= |values|
        invariant AddedAll(m, name, values[i..]) == AddedAll(old(m), name, values)
      {
        assert values[i..][1..] == values[i + 1..];
        Add(name, values[i]);
        i := i + 1;
      }
    }
  }

  // ------------------------------------------------------------------------

  /** All values of one name, once or not at all. */
  lemma {:induction false} AddedAllIs(m: Header, name: string, values: seq<string>)
    ensures var key := Canonical(name);
      AddedAll(m, name, values)
      == if values == [] then m else m[key := (if key in m then m[key] else []) + values]
    decreases |values|
  {
    if values != [] {
      var key := Canonical(name);
      AddedAllIs(Added(m, name, values[0]), name, values[1..]);
      assert values == [values[0]] + values[1..];
      var before := if key in m then m[key] else [];
      assert before + [values[0]] + values[1..] == before + values;
      if values[1..] == [] {
        assert values == [values[0]];
      }
    }
  }

  /** Only canonical names are ever added, and none without a value. */
  lemma {:induction false} FilledKeys(m: Header, hs: seq<HttpHeader>)
    ensures m.Keys <= Filled(m, hs).Keys
    ensures forall k :: k in Filled(m, hs).Keys && k !in m.Keys ==> Canonical(k) == k && Filled(m, hs)[k] != []
    ensures forall k :: k in m.Keys ==> m[k] <= Filled(m, hs)[k]
    ensures forall k :: k in m.Keys && Canonical(k) != k ==> Filled(m, hs)[k] == m[k]
    decreases |hs|
  {
    if hs != [] {
      var m' := AddedAll(m, hs[0].name, hs[0].values);
      AddedAllIs(m, hs[0].name, hs[0].values);
      CanonicalIsCanonical(hs[0].name);
      FilledKeys(m', hs[1..]);
    }
  }

  ghost predicate DistinctNames(hs: seq<HttpHeader>) {
    forall i, j :: 0 <= i < j < |hs| ==> hs[i].name != hs[j].name
  }

  ghost predicate CanonicalNonEmpty(hs: seq<HttpHeader>) {
    forall i :: 0 <= i < |hs| ==> Canonical(hs[i].name) == hs[i].name && hs[i].values != []
  }

  /** The map a list of headers with distinct names stands for. */
  ghost predicate Lists(hs: seq<HttpHeader>, m: Header) {
    && DistinctNames(hs)
    && (forall i :: 0 <= i < |hs| ==> hs[i].name in m && m[hs[i].name] == hs[i].values)
    && (forall k :: k in m ==> exists i :: 0 <= i < |hs| && hs[i].name == k)
  }

  function AsMap(hs: seq<HttpHeader>): Header
    decreases |hs|
  {
    if hs == [] then map[] else map[hs[0].name := hs[0].values] + AsMap(hs[1..])
  }

  lemma {:induction false} AsMapIs(hs: seq<HttpHeader>)
    requires DistinctNames(hs)
    ensures forall k :: k in AsMap(hs) ==> exists i :: 0 <= i < |hs| && hs[i].name == k
    ensures forall i :: 0 <= i < |hs| ==> hs[i].name in AsMap(hs) && AsMap(hs)[hs[i].name] == hs[i].values
    decreases |hs|
  {
    if hs != [] {
      var rest := hs[1..];
      assert forall i :: 0 <= i < |rest| ==> rest[i] == hs[i + 1];
      AsMapIs(rest);
      assert forall i :: 1 <= i < |hs| ==> hs[i] == rest[i - 1];
      assert hs[0].name !in AsMap(rest);
    }
  }

  lemma NewName(m: Header, h: HttpHeader)
    requires Canonical(h.name) == h.name && h.values != [] && h.name !in m
    ensures AddedAll(m, h.name, h.values) == m[h.name := h.values]
  {
    AddedAllIs(m, h.name, h.values);
    assert [] + h.values == h.values;
  }

  lemma {:induction false} FilledDistinct(m: Header, hs: seq<HttpHeader>)
    requires DistinctNames(hs) && CanonicalNonEmpty(hs)
    requires forall i :: 0 <= i < |hs| ==> hs[i].name !in m
    ensures Filled(m, hs) == m + AsMap(hs)
    decreases |hs|
  {
    if hs == [] {
    } else {
      var h, rest := hs[0], hs[1..];
      var m' := m[h.name := h.values];
      RestStaysNew(m, hs);
      NewName(m, h);
      FilledDistinct(m', rest);
      Inserted(m, h, AsMap(rest));
    }
  }

  lemma Inserted(m: Header, h: HttpHeader, rest: Header)
    ensures m[h.name := h.values] + rest == m + (map[h.name := h.values] + rest)
  {
  }

  lemma RestStaysNew(m: Header, hs: seq<HttpHeader>)
    requires hs != [] && DistinctNames(hs) && CanonicalNonEmpty(hs)
    requires forall i :: 0 <= i < |hs| ==> hs[i].name !in m
    ensures DistinctNames(hs[1..]) && CanonicalNonEmpty(hs[1..])
    ensures forall i :: 0 <= i < |hs[1..]| ==> hs[1..][i].name !in m[hs[0].name := hs[0].values]
  {
    assert forall i :: 0 <= i < |hs[1..]| ==> hs[1..][i] == hs[i + 1];
  }

  /** A list gives back the map it stands for exactly when its names are canonical and none is without a value. */
  lemma FilledExactlyWhen(hs: seq<HttpHeader>, m: Header)
    requires Lists(hs, m)
    ensures Filled(map[], hs) == m <==> CanonicalNonEmpty(hs)
  {
    if CanonicalNonEmpty(hs) {
      FilledDistinct(map[], hs);
      ListsAsMap(hs, m);
    }
    if Filled(map[], hs) == m {
      FilledKeys(map[], hs);
    }
  }

  lemma ListsAsMap(hs: seq<HttpHeader>, m: Header)
    requires Lists(hs, m)
    ensures map[] + AsMap(hs) == m
  {
    AsMapIs(hs);
    SameMap(AsMap(hs), m);
  }

  lemma SameMap(a: Header, b: Header)
    requires a.Keys == b.Keys && forall k :: k in a ==> a[k] == b[k]
    ensures map[] + a == b
  {
  }

  // ------------------------------------------------------------------------
  // Names, character by character
  // ------------------------------------------------------------------------

  /** Two names are equal under folding when they are so character by character. */
  lemma EqualFoldIs(a: string, b: string)
    ensures EqualFold(a, b) <==> |a| == |b| && forall i :: 0 <= i < |a| ==> SameFolded(a[i], b[i])
  {
    if EqualFold(a, b) {
      assert |Fold(a)| == |a| && |Fold(b)| == |b|;
      forall i | 0 <= i < |a| ensures SameFolded(a[i], b[i]) {
        assert Fold(a)[i] == Fold(b)[i];
        SameFoldedIs(a[i], b[i]);
      }
    }
    if |a| == |b| && forall i :: 0 <= i < |a| ==> SameFolded(a[i], b[i]) {
      forall i | 0 <= i < |a| ensures Fold(a)[i] == Fold(b)[i] {
        SameFoldedIs(a[i], b[i]);
      }
    }
  }

  /** The same character, or letters that differ in case; the long s and the Kelvin sign fold to letters. */
  predicate SameFolded(a: char, b: char) {
    || a == b
    || ('A' <= a <= 'Z' && b as int == a as int + 32) || ('A' <= b <= 'Z' && a as int == b as int + 32)
    || (a in "sS\U{017F}" && b in "sS\U{017F}")
    || (a in "kK\U{212A}" && b in "kK\U{212A}")
  }

  lemma SameFoldedIs(a: char, b: char)
    ensures SameFolded(a, b) <==> FoldChar(a) == FoldChar(b)
  {
  }

  lemma {:induction false} RecasedAt(s: string, upper: bool, i: nat)
    requires i < |s|
    ensures |Recased(s, upper)| == |s|
    ensures Recased(s, upper)[i] == if (if i == 0 then upper else s[i - 1] == '-') then ToUpper(s[i]) else ToLower(s[i])
    decreases |s|
  {
    RecasedAgain(s, upper);
    if i > 0 {
      RecasedAt(s[1..], s[0] == '-', i - 1);
    }
  }

  /** In a name of field-name characters the first letter and those after a hyphen are upper case, the others lower. */
  lemma CanonicalAt(name: string, i: nat)
    requires i < |name|
    requires forall j :: 0 <= j < |name| ==>
      'a' <= name[j] <= 'z' || 'A' <= name[j] <= 'Z' || '0' <= name[j] <= '9' || name[j] in "!#$%&'*+-.^_`|~"
    ensures |Canonical(name)| == |name|
    ensures var c, d := name[i] as int, Canonical(name)[i] as int;
      if i == 0 || name[i - 1] == '-' then d == if 97 <= c <= 122 then c - 32 else c
      else d == if 65 <= c <= 90 then c + 32 else c
  {
    RecasedAt(name, true, i);
  }

  /** A name with any other character is left alone. */
  lemma CanonicalElse(name: string, i: nat)
    requires i < |name|
    requires var c := name[i];
      !('a' <= c <= 'z') && !('A' <= c <= 'Z') && !('0' <= c <= '9') && c !in "!#$%&'*+-.^_`|~"
    ensures Canonical(name) == name
  {
    assert !TokenChar(name[i]);
  }
}
