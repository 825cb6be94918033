/**
  Header translation between net/http and the tunnel (internal/serviceconfig/headers.go) and the URI
  part of header mutation (internal/serviceconfig/generic_endpoint.go:191-209). Signing and validating
  are parameters; `Inverse` is what is assumed of them.
 */
module Translation {
  import opened Wrappers
  import opened Tunnel
  import opened HeaderMap

  const MUTATED_HEADERS := ["X-Spinnaker-User"]
  const STRIPPED_HEADERS := ["Authorization"]

  datatype Mutation =
    | Unregistered
    | Registered(sign: string -> Option<string>, validate: string -> Option<string>)

  /** Validating what was signed gives the original back. */
  ghost predicate Inverse(m: Mutation) {
    m.Registered? ==> forall v :: m.sign(v).Some? ==> m.validate(m.sign(v).value) == Some(v)
  }

  /** `NoFirstValue` is the run-time panic of indexing an empty list of values. */
  datatype HeaderError = SignFailed | ValidateFailed | NoFirstValue

  ghost predicate FoldedIn(l: seq<string>, t: string) {
    exists i :: 0 <= i < |l| && EqualFold(l[i], t)
  }

  method ContainsFolded(l: seq<string>, t: string) returns (found: bool)
    ensures found <==> FoldedIn(l, t)
  {
    var i := 0;
    while i < |l|
      invariant 0 <= i <= |l|
      invariant forall j :: 0 <= j < i ==> !EqualFold(l[j], t)
    {
      if EqualFold(l[i], t) {
        return true;
      }
      i := i + 1;
    }
    return false;
  }

  ghost predicate Mutates(m: Mutation, name: string) {
    m.Registered? && FoldedIn(MUTATED_HEADERS, name)
  }

  ghost predicate Kept(m: Mutation, name: string) {
    Mutates(m, name) || !FoldedIn(STRIPPED_HEADERS, name)
  }

  // ------------------------------------------------------------------------
  // net/http to the tunnel
  // ------------------------------------------------------------------------

  /** The values sent for one name. */
  ghost function Outgoing(m: Mutation, name: string, values: seq<string>): Result<seq<string>, HeaderError> {
    if Mutates(m, name) then
      if values == [] then Failure(NoFirstValue)
      else if m.sign(values[0]).None? then Failure(SignFailed)
      else Success([m.sign(values[0]).value])
    else Success(values)
  }

  /** `hs` lists the kept names of `headers`, in some order, with the values sent for them. */
  ghost predicate Translates(m: Mutation, headers: Header, hs: seq<HttpHeader>) {
    && DistinctNames(hs)
    && (forall i :: 0 <= i < |hs| ==>
          && hs[i].name in headers && Kept(m, hs[i].name)
          && Outgoing(m, hs[i].name, headers[hs[i].name]) == Success(hs[i].values))
    && (forall k :: k in headers && Kept(m, k) ==> exists i :: 0 <= i < |hs| && hs[i].name == k)
  }

  /** Ranges over the map in any order. */
  method HTTPHeadersToPB(m: Mutation, headers: Header) returns (r: Result<seq<HttpHeader>, HeaderError>)
    ensures r.Success? ==> Translates(m, headers, r.value)
    ensures r.Failure? ==> exists k :: k in headers && Kept(m, k) && Outgoing(m, k, headers[k]) == Failure(r.error)
    ensures r.Failure? ==>
      m.Registered? && exists k :: k in headers && EqualFold("X-Spinnaker-User", k)
                                   && (headers[k] == [] || m.sign(headers[k][0]).None?)
  {
    var ret: seq<HttpHeader> := [];
    var todo := headers.Keys;
    while todo != {}
      invariant todo <= headers.Keys
      invariant Translates(m, headers - todo, ret)
      decreases |todo|
    {
      var name :| name in todo;
      var values := headers[name];
      ghost var before, done := ret, headers - todo;
      todo := todo - {name};
      var one := HTTPHeaderToPB(m, name, values);
      if one.Failure? {
        KeptIs(m, name);
        return Failure(one.error);
      }
      ret := ret + one.value;
      assert headers - todo == done[name := values];
      TranslatesMore(m, done, before, name, values, ret);
    }
    assert headers - todo == headers;
    return Success(ret);
  }

  /** A turn of the loop: what one name adds to the list. */
  method HTTPHeaderToPB(m: Mutation, name: string, values: seq<string>)
    returns (r: Result<seq<HttpHeader>, HeaderError>)
    ensures r ==
      if !Kept(m, name) then Success([])
      else match Outgoing(m, name, values)
        case Success(sent) => Success([HttpHeader(name, sent)])
        case Failure(error) => Failure(error)
  {
    var mutated := ContainsFolded(MUTATED_HEADERS, name);
    if m.Registered? && mutated {
      if values == [] {
        return Failure(NoFirstValue);
      }
      var signed := m.sign(values[0]);
      if signed.None? {
        return Failure(SignFailed);
      }
      return Success([HttpHeader(name, [signed.value])]);
    }
    var stripped := ContainsFolded(STRIPPED_HEADERS, name);
    return Success(if stripped then [] else [HttpHeader(name, values)]);
  }

  lemma TranslatesMore(m: Mutation, headers: Header, hs: seq<HttpHeader>, name: string, values: seq<string>,
                       hs': seq<HttpHeader>)
    requires Translates(m, headers, hs) && name !in headers
    requires if Kept(m, name)
             then Outgoing(m, name, values).Success? && hs' == hs + [HttpHeader(name, Outgoing(m, name, values).value)]
             else hs' == hs
    ensures Translates(m, headers[name := values], hs')
  {
    var more := headers[name := values];
    if Kept(m, name) {
      assert hs'[|hs|].name == name;
    }
    forall k | k in more && Kept(m, k) ensures exists i :: 0 <= i < |hs'| && hs'[i].name == k {
      if k != name {
        var i :| 0 <= i < |hs| && hs[i].name == k;
        assert hs'[i].name == k;
      }
    }
  }

  // ------------------------------------------------------------------------
  // The tunnel to net/http
  // ------------------------------------------------------------------------

  /** The values a received header adds. */
  ghost function Incoming(m: Mutation, h: HttpHeader): Result<seq<string>, HeaderError> {
    if Mutates(m, h.name) then
      if h.values == [] then Failure(NoFirstValue)
      else if m.validate(h.values[0]).None? then Failure(ValidateFailed)
      else Success([m.validate(h.values[0]).value])
    else Success(h.values)
  }

  /** The first error of a list, or the list with its incoming values. */
  ghost function Unmutated(m: Mutation, hs: seq<HttpHeader>): Result<seq<HttpHeader>, HeaderError>
    decreases |hs|
  {
    if hs == [] then Success([])
    else
      var first := Incoming(m, hs[0]);
      var rest := Unmutated(m, hs[1..]);
      if first.Failure? then Failure(first.error)
      else if rest.Failure? then rest
      else Success([HttpHeader(hs[0].name, first.value)] + rest.value)
  }

  /** The header map after the loop over `hs`, and the error that ended it, if one did. */
  ghost function Received(m: Mutation, out: Header, hs: seq<HttpHeader>): (Header, Option<HeaderError>)
    decreases |hs|
  {
    if hs == [] then (out, None)
    else match Incoming(m, hs[0])
      case Failure(error) => (out, Some(error))
      case Success(values) => Received(m, AddedAll(out, hs[0].name, values), hs[1..])
  }

  method PBHeadersToHTTP(m: Mutation, hs: seq<HttpHeader>, out: HttpHeaders) returns (e: Option<HeaderError>)
    modifies out
    ensures (out.m, e) == Received(m, old(out.m), hs)
  {
    var i := 0;
    assert hs[0..] == hs;
    while i < |hs|
      invariant 0 <= i <= |hs|
      invariant Received(m, out.m, hs[i..]) == Received(m, old(out.m), hs)
    {
      assert hs[i..][0] == hs[i] && hs[i..][1..] == hs[i + 1..];
      e := PBHeaderToHTTP(m, hs[i], out);
      if e.Some? {
        return;
      }
      i := i + 1;
    }
    return None;
  }

  /** A turn of the loop. */
  method PBHeaderToHTTP(m: Mutation, header: HttpHeader, out: HttpHeaders) returns (e: Option<HeaderError>)
    modifies out
    ensures var values := Incoming(m, header);
      if values.Success? then e.None? && out.m == AddedAll(old(out.m), header.name, values.value)
      else e == Some(values.error) && out.m == old(out.m)
  {
    var mutated := ContainsFolded(MUTATED_HEADERS, header.name);
    if m.Registered? && mutated {
      if header.values == [] {
        return Some(NoFirstValue);
      }
      var value := m.validate(header.values[0]);
      if value.None? {
        return Some(ValidateFailed);
      }
      out.AddValues(header.name, [value.value]);
    } else {
      out.AddValues(header.name, header.values);
    }
    return None;
  }

  lemma {:induction false} ReceivedIs(m: Mutation, out: Header, hs: seq<HttpHeader>)
    requires Unmutated(m, hs).Success?
    ensures Received(m, out, hs) == (Filled(out, Unmutated(m, hs).value), None)
    decreases |hs|
  {
    if hs != [] {
      var values := Incoming(m, hs[0]).value;
      ReceivedIs(m, AddedAll(out, hs[0].name, values), hs[1..]);
      assert Unmutated(m, hs).value[1..] == Unmutated(m, hs[1..]).value;
    }
  }

  // ------------------------------------------------------------------------
  // Round trip
  // ------------------------------------------------------------------------

  /** What is to arrive: no Authorization under any casing, and the first value of a mutated header. */
  ghost function Expected(m: Mutation, headers: Header): Header {
    map k | k in headers && Kept(m, k) :: if Mutates(m, k) && headers[k] != [] then [headers[k][0]] else headers[k]
  }

  /** A header that every net/http server and client produces: canonical names, each with a value. */
  ghost predicate WellFormed(m: Mutation, headers: Header) {
    forall k :: k in headers && Kept(m, k) ==> Canonical(k) == k && headers[k] != []
  }

  lemma {:induction false} UnmutatedOutgoing(m: Mutation, headers: Header, hs: seq<HttpHeader>)
    requires Inverse(m)
    requires forall i :: 0 <= i < |hs| ==> hs[i].name in headers &&
                                           Outgoing(m, hs[i].name, headers[hs[i].name]) == Success(hs[i].values)
    ensures Unmutated(m, hs).Success? && |Unmutated(m, hs).value| == |hs|
    ensures forall i :: 0 <= i < |hs| ==>
      var v := headers[hs[i].name];
      Unmutated(m, hs).value[i] == HttpHeader(hs[i].name, if Mutates(m, hs[i].name) && v != [] then [v[0]] else v)
    decreases |hs|
  {
    if hs != [] {
      assert forall i :: 0 <= i < |hs[1..]| ==> hs[1..][i] == hs[i + 1];
      UnmutatedOutgoing(m, headers, hs[1..]);
      var h := hs[0];
      var v := headers[h.name];
      assert Incoming(m, h) == Success(if Mutates(m, h.name) && v != [] then [v[0]] else v);
      assert forall i :: 1 <= i < |hs| ==> hs[i] == hs[1..][i - 1];
      assert forall i :: 1 <= i < |hs| ==> Unmutated(m, hs).value[i] == Unmutated(m, hs[1..]).value[i - 1];
    }
  }

  lemma UnmutatedLists(m: Mutation, headers: Header, hs: seq<HttpHeader>, list: seq<HttpHeader>)
    requires Inverse(m) && Translates(m, headers, hs) && Unmutated(m, hs) == Success(list)
    ensures Lists(list, Expected(m, headers))
  {
    UnmutatedOutgoing(m, headers, hs);
    var want := Expected(m, headers);
    forall k | k in want ensures exists i :: 0 <= i < |list| && list[i].name == k {
      var i :| 0 <= i < |hs| && hs[i].name == k;
      assert list[i].name == k;
    }
  }

  lemma ListedWellFormed(m: Mutation, headers: Header, list: seq<HttpHeader>)
    requires Lists(list, Expected(m, headers))
    ensures CanonicalNonEmpty(list) <==> WellFormed(m, headers)
  {
    if CanonicalNonEmpty(list) {
      forall k | k in headers && Kept(m, k) ensures Canonical(k) == k && headers[k] != [] {
        assert k in Expected(m, headers);
        var i :| 0 <= i < |list| && list[i].name == k;
      }
    }
  }

  /**
    Headers sent one way and received the other, in whatever order the map is ranged over, arrive without
    error, and arrive as expected exactly when every name kept is canonical and has a value.
   */
  lemma RoundTripExactlyWhen(m: Mutation, headers: Header, hs: seq<HttpHeader>)
    requires Inverse(m) && Translates(m, headers, hs)
    ensures Received(m, map[], hs).1.None?
    ensures Received(m, map[], hs).0 == Expected(m, headers) <==> WellFormed(m, headers)
  {
    UnmutatedOutgoing(m, headers, hs);
    var list := Unmutated(m, hs).value;
    ReceivedIs(m, map[], hs);
    UnmutatedLists(m, headers, hs, list);
    ListedWellFormed(m, headers, list);
    FilledExactlyWhen(list, Expected(m, headers));
  }

  /** Authorization never arrives, under any casing, whatever the list received. */
  lemma NothingStrippedArrives(m: Mutation, headers: Header, hs: seq<HttpHeader>, k: string)
    requires Translates(m, headers, hs) && FoldedIn(STRIPPED_HEADERS, k)
    ensures forall i :: 0 <= i < |hs| ==> hs[i].name != k
  {
    assert Fold(STRIPPED_HEADERS[0])[0] != Fold(MUTATED_HEADERS[0])[0];
  }

  /** Without a registered keyset a list is received as it is. */
  lemma {:induction false} UnregisteredIsPlain(hs: seq<HttpHeader>)
    ensures Unmutated(Unregistered, hs) == Success(hs)
    decreases |hs|
  {
    if hs != [] {
      UnregisteredIsPlain(hs[1..]);
      assert [HttpHeader(hs[0].name, hs[0].values)] + hs[1..] == hs;
    }
  }

  // ------------------------------------------------------------------------
  // The same, name by name
  // ------------------------------------------------------------------------

  lemma NamesFold(name: string)
    ensures FoldedIn(MUTATED_HEADERS, name) <==> EqualFold("X-Spinnaker-User", name)
    ensures FoldedIn(STRIPPED_HEADERS, name) <==> EqualFold("Authorization", name)
    ensures !(EqualFold("X-Spinnaker-User", name) && EqualFold("Authorization", name))
  {
    assert MUTATED_HEADERS[0] == "X-Spinnaker-User" && STRIPPED_HEADERS[0] == "Authorization";
    assert |Fold("X-Spinnaker-User")| != |Fold("Authorization")|;
  }

  lemma KeptIs(m: Mutation, name: string)
    ensures Kept(m, name) <==> !EqualFold("Authorization", name)
    ensures Mutates(m, name) <==> m.Registered? && EqualFold("X-Spinnaker-User", name)
  {
    NamesFold(name);
  }

  /**
    What is sent: every header under its name with its values, but the first value of X-Spinnaker-User signed if
    mutation is registered, and nothing that case-folds to Authorization.
   */
  lemma SentAre(m: Mutation, headers: Header, hs: seq<HttpHeader>, k: string)
    requires Translates(m, headers, hs)
    ensures k in headers && !EqualFold("Authorization", k) && !(m.Registered? && EqualFold("X-Spinnaker-User", k)) ==>
      (exists i :: 0 <= i < |hs| && hs[i] == HttpHeader(k, headers[k]))
    ensures k in headers && m.Registered? && EqualFold("X-Spinnaker-User", k) ==>
      headers[k] != [] && m.sign(headers[k][0]).Some?
      && (exists i :: 0 <= i < |hs| && hs[i] == HttpHeader(k, [m.sign(headers[k][0]).value]))
    ensures k !in headers || EqualFold("Authorization", k) ==> forall i :: 0 <= i < |hs| ==> hs[i].name != k
    ensures forall i, j :: 0 <= i < j < |hs| ==> hs[i].name != hs[j].name
  {
    KeptIs(m, k);
    if k in headers && !EqualFold("Authorization", k) {
      var i :| 0 <= i < |hs| && hs[i].name == k;
      assert Outgoing(m, k, headers[k]) == Success(hs[i].values);
      if m.Registered? && EqualFold("X-Spinnaker-User", k) {
        assert hs[i] == HttpHeader(k, [m.sign(headers[k][0]).value]);
      } else {
        assert hs[i] == HttpHeader(k, headers[k]);
      }
    }
  }

  /** What arrives for one name. */
  ghost predicate ArrivesFor(m: Mutation, headers: Header, got: Header, k: string) {
    && (k in got <==> k in headers && !EqualFold("Authorization", k))
    && (k in got && headers[k] != [] ==>
          got[k] == if m.Registered? && EqualFold("X-Spinnaker-User", k) then [headers[k][0]] else headers[k])
  }

  lemma ExpectedIs(m: Mutation, headers: Header, k: string)
    ensures ArrivesFor(m, headers, Expected(m, headers), k)
  {
    KeptIs(m, k);
  }

  /**
    Of headers with canonical names and values, sent and received in any order of the map: a name arrives exactly
    when it is there and does not case-fold to Authorization, with its values, or the first of X-Spinnaker-User
    if mutation is registered.
   */
  lemma HeadersArrive(m: Mutation, headers: Header, hs: seq<HttpHeader>, k: string)
    requires Inverse(m) && Translates(m, headers, hs)
    requires forall n :: n in headers ==> Canonical(n) == n && headers[n] != []
    ensures Received(m, map[], hs).1 == None
    ensures var got := Received(m, map[], hs).0;
      && (k in got <==> k in headers && !EqualFold("Authorization", k))
      && (k in got ==>
            got[k] == if m.Registered? && EqualFold("X-Spinnaker-User", k) then [headers[k][0]] else headers[k])
  {
    RoundTripExactlyWhen(m, headers, hs);
    ExpectedIs(m, headers, k);
  }

  lemma {:induction false} FirstError(m: Mutation, out: Header, hs: seq<HttpHeader>, i: nat)
    requires i < |hs| && Received(m, out, hs).1.None?
    ensures Incoming(m, hs[i]).Success?
    decreases |hs|
  {
    if i > 0 {
      FirstError(m, AddedAll(out, hs[0].name, Incoming(m, hs[0]).value), hs[1..], i - 1);
    }
  }

  /** An error comes only of an X-Spinnaker-User without a value or whose first value does not validate. */
  lemma {:induction false} ErrorComes(m: Mutation, out: Header, hs: seq<HttpHeader>)
    requires Received(m, out, hs).1.Some?
    ensures m.Registered? && exists i :: 0 <= i < |hs| && EqualFold("X-Spinnaker-User", hs[i].name)
                                         && (hs[i].values == [] || m.validate(hs[i].values[0]).None?)
    decreases |hs|
  {
    KeptIs(m, hs[0].name);
    if Incoming(m, hs[0]).Success? {
      ErrorComes(m, AddedAll(out, hs[0].name, Incoming(m, hs[0]).value), hs[1..]);
      var i :| 0 <= i < |hs[1..]| && EqualFold("X-Spinnaker-User", hs[1..][i].name)
               && (hs[1..][i].values == [] || m.validate(hs[1..][i].values[0]).None?);
      assert hs[i + 1] == hs[1..][i];
    }
  }

  /** With mutation registered, no X-Spinnaker-User is received that does not validate, whatever the list. */
  lemma NoForgery(m: Mutation, out: Header, hs: seq<HttpHeader>, i: nat)
    requires m.Registered? && i < |hs| && EqualFold("X-Spinnaker-User", hs[i].name)
    requires hs[i].values == [] || m.validate(hs[i].values[0]).None?
    ensures Received(m, out, hs).1.Some?
  {
    KeptIs(m, hs[i].name);
    if Received(m, out, hs).1.None? {
      FirstError(m, out, hs, i);
    }
  }

  /** A header of the list may have given the value `v` for name `k`. */
  ghost predicate Gives(m: Mutation, h: HttpHeader, k: string, v: string) {
    && Canonical(h.name) == k
    && if m.Registered? && EqualFold("X-Spinnaker-User", h.name)
       then h.values != [] && m.validate(h.values[0]) == Some(v) else v in h.values
  }

  /** A value of the map received was there or was given by a header of the list, a validated one if mutated. */
  lemma {:induction false} ValuesCome(m: Mutation, out: Header, hs: seq<HttpHeader>, k: string, v: string)
    requires k in Received(m, out, hs).0 && v in Received(m, out, hs).0[k]
    ensures (k in out && v in out[k]) || exists i :: 0 <= i < |hs| && Gives(m, hs[i], k, v)
    decreases |hs|
  {
    if hs != [] && Incoming(m, hs[0]).Success? {
      var values := Incoming(m, hs[0]).value;
      var more := AddedAll(out, hs[0].name, values);
      ValuesCome(m, more, hs[1..], k, v);
      AddedAllIs(out, hs[0].name, values);
      KeptIs(m, hs[0].name);
      if exists i :: 0 <= i < |hs[1..]| && Gives(m, hs[1..][i], k, v) {
        var i :| 0 <= i < |hs[1..]| && Gives(m, hs[1..][i], k, v);
        assert Gives(m, hs[i + 1], k, v);
      } else if !(k in out && v in out[k]) {
        assert Gives(m, hs[0], k, v);
      }
    }
  }

  /**
    With mutation unregistered the map without Authorization arrives, exactly when its other names are canonical
    and have values.
   */
  lemma PlainTrip(headers: Header, hs: seq<HttpHeader>)
    requires Translates(Unregistered, headers, hs)
    ensures (forall k :: (k in Filled(map[], hs) <==> k in headers && !EqualFold("Authorization", k))
                      && (k in Filled(map[], hs) ==> Filled(map[], hs)[k] == headers[k]))
       <==> (forall k :: k in headers && !EqualFold("Authorization", k) ==> Canonical(k) == k && headers[k] != [])
  {
    RoundTripExactlyWhen(Unregistered, headers, hs);
    UnregisteredIsPlain(hs);
    ReceivedIs(Unregistered, map[], hs);
    PlainExpected(headers, Filled(map[], hs));
    PlainWellFormed(headers);
  }

  lemma PlainExpected(headers: Header, got: Header)
    ensures (forall k :: (k in got <==> k in headers && !EqualFold("Authorization", k))
                      && (k in got ==> got[k] == headers[k]))
       <==> got == Expected(Unregistered, headers)
  {
    forall k {
      KeptIs(Unregistered, k);
    }
    var want := Expected(Unregistered, headers);
    assert forall k :: k in want <==> k in headers && !EqualFold("Authorization", k);
    assert forall k :: k in want ==> want[k] == headers[k];
    if forall k :: (k in got <==> k in headers && !EqualFold("Authorization", k))
                && (k in got ==> got[k] == headers[k]) {
      assert got.Keys == want.Keys;
    }
  }

  lemma PlainWellFormed(headers: Header)
    ensures WellFormed(Unregistered, headers) <==>
      (forall k :: k in headers && !EqualFold("Authorization", k) ==> Canonical(k) == k && headers[k] != [])
  {
    forall k {
      KeptIs(Unregistered, k);
    }
  }
}
