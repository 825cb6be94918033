/** unmutateURI (internal/serviceconfig/generic_endpoint.go:191-209), with strings.Split and strings.Join on "/". */
module Uri {
  import opened Wrappers
  import opened Translation

  function Split(s: string): (parts: seq<string>)
    ensures parts != []
  {
    if s == [] then [""]
    else
      var rest := Split(s[1..]);
      if s[0] == '/' then [""] + rest else [[s[0]] + rest[0]] + rest[1..]
  }

  function Join(parts: seq<string>): string
    decreases |parts|
  {
    if parts == [] then ""
    else if |parts| == 1 then parts[0]
    else parts[0] + "/" + Join(parts[1..])
  }

  predicate SlashFree(s: string) {
    '/' !in s
  }

  lemma {:induction false} JoinOfSplit(s: string)
    ensures Join(Split(s)) == s
  {
    if s != [] {
      JoinOfSplit(s[1..]);
      var rest := Split(s[1..]);
      if s[0] == '/' {
        assert Join([""] + rest) == "" + "/" + Join(rest) by { assert ([""] + rest)[1..] == rest; }
      } else {
        var all := [[s[0]] + rest[0]] + rest[1..];
        assert all[1..] == rest[1..];
        assert Join(all) == [s[0]] + Join(rest);
      }
    }
  }

  lemma {:induction false} SplitOfPart(part: string, more: string)
    requires SlashFree(part)
    ensures Split(part) == [part]
    ensures Split(part + "/" + more) == [part] + Split(more)
    decreases |part|
  {
    var s := part + "/" + more;
    if part == [] {
      assert s[1..] == more;
    } else {
      SplitOfPart(part[1..], more);
      assert s[1..] == part[1..] + "/" + more;
      assert [part[0]] + part[1..] == part;
    }
  }

  lemma {:induction false} SplitOfJoin(parts: seq<string>)
    requires parts != [] && forall i :: 0 <= i < |parts| ==> SlashFree(parts[i])
    ensures Split(Join(parts)) == parts
    decreases |parts|
  {
    if |parts| == 1 {
      SplitOfPart(parts[0], "");
    } else {
      SplitOfJoin(parts[1..]);
      SplitOfPart(parts[0], Join(parts[1..]));
    }
  }

  lemma {:induction false} SplitParts(s: string)
    ensures forall i :: 0 <= i < |Split(s)| ==> SlashFree(Split(s)[i])
  {
    if s != [] {
      SplitParts(s[1..]);
    }
  }

  predicate Authorizes(parts: seq<string>) {
    |parts| >= 3 && parts[1] == "authorize"
  }

  function UnmutateURI(m: Mutation, typ: string, httpMethod: string, uri: string): Result<string, HeaderError> {
    if typ != "fiat" || httpMethod != "GET" || m.Unregistered? then Success(uri)
    else
      var parts := Split(uri);
      if !Authorizes(parts) then Success(uri)
      else match m.validate(parts[2])
        case None => Failure(ValidateFailed)
        case Some(user) => Success(Join(parts[2 := user]))
  }

  // ------------------------------------------------------------------------

  function Before(parts: seq<string>): string
    requires |parts| >= 3
  {
    parts[0] + "/" + parts[1] + "/"
  }

  function After(parts: seq<string>): string
    requires |parts| >= 3
  {
    if |parts| == 3 then "" else "/" + Join(parts[3..])
  }

  lemma JoinAround(parts: seq<string>)
    requires |parts| >= 3
    ensures Join(parts) == Before(parts) + parts[2] + After(parts)
  {
    JoinFirst(parts);
    JoinFirst(parts[1..]);
    JoinThird(parts);
    Nested(parts[0], parts[1], parts[2], After(parts));
  }

  lemma JoinFirst(parts: seq<string>)
    requires |parts| >= 2
    ensures Join(parts) == parts[0] + "/" + Join(parts[1..])
  {
  }

  lemma JoinThird(parts: seq<string>)
    requires |parts| >= 3
    ensures Join(parts[1..][1..]) == parts[2] + After(parts)
  {
    var one := parts[1..][1..];
    assert one[0] == parts[2] && one[1..] == parts[3..];
    if |parts| == 3 {
      assert parts[2] + "" == parts[2];
    } else {
      JoinFirst(one);
      assert parts[2] + "/" + Join(parts[3..]) == parts[2] + ("/" + Join(parts[3..]));
    }
  }

  lemma Nested(a: string, b: string, c: string, d: string)
    ensures a + "/" + (b + "/" + (c + d)) == a + "/" + b + "/" + c + d
  {
  }

  function Authorize(first: string, third: string, rest: seq<string>): (parts: seq<string>)
    ensures |parts| == 3 + |rest|
  {
    [first, "authorize", third] + rest
  }

  lemma AuthorizeJoined(first: string, third: string, rest: seq<string>)
    ensures Join(Authorize(first, third, rest))
         == first + "/authorize/" + third + if rest == [] then "" else "/" + Join(rest)
  {
    var parts := Authorize(first, third, rest);
    JoinAround(parts);
    assert parts[3..] == rest;
    assert "/" + "authorize" + "/" == "/authorize/";
    assert Before(parts) == first + "/authorize/";
  }

  /**
    A fiat GET whose second part is "authorize" and whose third is the signature of `user`: exactly that part
    is replaced by `user`. The other parts stay the same parts exactly when `user` has no slash of its own.
   */
  lemma UnmutatesThirdPart(m: Mutation, first: string, user: string, rest: seq<string>)
    requires m.Registered? && Inverse(m) && m.sign(user).Some?
    requires SlashFree(first) && SlashFree(m.sign(user).value)
    requires AllSlashFree(rest)
    ensures var result := UnmutateURI(m, "fiat", "GET", Join(Authorize(first, m.sign(user).value, rest)));
      && result.Success?
      && result.value == first + "/authorize/" + user + (if rest == [] then "" else "/" + Join(rest))
      && (Split(result.value) == Authorize(first, user, rest) <==> SlashFree(user))
  {
    UnmutatesJoined(m, first, user, rest);
    AuthorizeJoined(first, user, rest);
    SlashesOf(first, user, rest);
    SplitsBackExactlyWhen(Authorize(first, user, rest));
  }

  predicate AllSlashFree(parts: seq<string>) {
    forall i :: 0 <= i < |parts| ==> SlashFree(parts[i])
  }

  lemma SlashesOf(first: string, third: string, rest: seq<string>)
    requires SlashFree(first) && AllSlashFree(rest)
    ensures AllSlashFree(Authorize(first, third, rest)) <==> SlashFree(third)
  {
    var parts := Authorize(first, third, rest);
    assert parts[0] == first && SlashFree(parts[1]) && parts[2] == third;
    assert forall i :: 3 <= i < |parts| ==> parts[i] == rest[i - 3];
  }

  lemma UnmutatesJoined(m: Mutation, first: string, user: string, rest: seq<string>)
    requires m.Registered? && Inverse(m) && m.sign(user).Some?
    requires SlashFree(first) && SlashFree(m.sign(user).value) && AllSlashFree(rest)
    ensures UnmutateURI(m, "fiat", "GET", Join(Authorize(first, m.sign(user).value, rest)))
         == Success(Join(Authorize(first, user, rest)))
  {
    var parts := Authorize(first, m.sign(user).value, rest);
    SlashesOf(first, m.sign(user).value, rest);
    SplitOfJoin(parts);
    assert parts[2 := user] == Authorize(first, user, rest);
  }

  lemma SplitsBackExactlyWhen(parts: seq<string>)
    requires parts != []
    ensures Split(Join(parts)) == parts <==> AllSlashFree(parts)
  {
    SplitParts(Join(parts));
    if AllSlashFree(parts) {
      SplitOfJoin(parts);
    }
  }

  /** A URI comes back unchanged exactly when it is not one to unmutate, or its token stands for itself. */
  lemma UnchangedExactlyWhen(m: Mutation, typ: string, httpMethod: string, uri: string)
    ensures UnmutateURI(m, typ, httpMethod, uri) == Success(uri)
       <==> typ != "fiat" || httpMethod != "GET" || m.Unregistered?
            || |Split(uri)| < 3 || Split(uri)[1] != "authorize"
            || m.validate(Split(uri)[2]) == Some(Split(uri)[2])
  {
    var parts := Split(uri);
    JoinOfSplit(uri);
    if m.Registered? && Authorizes(parts) && m.validate(parts[2]).Some? {
      var user := m.validate(parts[2]).value;
      var changed := parts[2 := user];
      JoinAround(parts);
      JoinAround(changed);
      assert Before(changed) == Before(parts) && changed[3..] == parts[3..];
      if Join(changed) == uri {
        SameMiddle(Before(parts), user, parts[2], After(parts));
      } else {
        assert user == parts[2] ==> changed == parts;
      }
    }
  }

  /** It is refused exactly when it is a fiat GET under authorize whose token does not validate. */
  lemma RefusedExactlyWhen(m: Mutation, typ: string, httpMethod: string, uri: string)
    ensures UnmutateURI(m, typ, httpMethod, uri).Failure?
       <==> typ == "fiat" && httpMethod == "GET" && m.Registered?
            && |Split(uri)| >= 3 && Split(uri)[1] == "authorize" && m.validate(Split(uri)[2]).None?
  {
  }

  lemma SameMiddle(a: string, b: string, c: string, d: string)
    requires a + b + d == a + c + d
    ensures b == c
  {
    assert |b| == |c|;
    assert b == (a + b + d)[|a|..|a| + |b|];
    assert c == (a + c + d)[|a|..|a| + |c|];
  }
}
