/** The redactor of the debug panel, `redactDebugJson`: no depth cut, a new object filled key by key. */
module DebugRedaction {
  import opened Text
  import opened Json

  const SECRET_WORDS: seq<string> := ["token", "password", "private_key", "privatekey", "secret", "install_command"]
  const LONG_TEXT_WORDS: seq<string> := ["token", "secret", "password", "private"]

  predicate SecretName(key: string) {
    ContainsAnyFolded(key, SECRET_WORDS)
  }

  function RedactText(s: string): string {
    if Contains(s, "vless://") then "[REDACTED_LINK]"
    else if |s| > 160 && ContainsAnyFolded(s, LONG_TEXT_WORDS) then "[REDACTED]"
    else s
  }

  /** The members an object gains when these are assigned to it one by one and the keys differ: assigning
      to `__proto__` runs the prototype setter and creates no member. */
  function Assigned(members: seq<(string, Json)>): (r: seq<(string, Json)>)
    ensures |r| <= |members|
    ensures forall m :: m in r ==> m in members && m.0 != "__proto__"
  {
    if members == [] then []
    else
      var rest := Assigned(members[..|members| - 1]);
      var last := members[|members| - 1];
      if last.0 == "__proto__" then rest else rest + [last]
  }

  function Redact(value: Json): Json
    decreases value, 2
  {
    match value
    case Arr(items) => Arr(seq(|items|, i requires 0 <= i < |items| => Redact(items[i])))
    case Obj(members) => Obj(Assigned(RedactedPairs(members)))
    case Str(s) => Str(RedactText(s))
    case Num(_) | Bool(_) | Null => value
    case Undefined => Str("undefined")
    case Opaque(text) => Str(text)
  }

  /** The value stored under a key. */
  function RedactMember(key: string, child: Json): Json
    decreases child, 3
  {
    if key == "share_link" then Str("[REDACTED_SHARE_LINK]")
    else if SecretName(key) then Str("[REDACTED]")
    else Redact(child)
  }

  /** All members with their redacted values, before assignment. */
  function RedactedPairs(members: seq<(string, Json)>): (r: seq<(string, Json)>)
    ensures |r| == |members|
    ensures forall i :: 0 <= i < |members| ==> r[i].0 == members[i].0
    decreases Obj(members), 1
  {
    seq(|members|, i requires 0 <= i < |members| => (members[i].0, RedactMember(members[i].0, members[i].1)))
  }

  /** Objects have one member per key, at every depth. */
  predicate DistinctKeys(v: Json)
    decreases v
  {
    match v
    case Arr(items) => forall i :: 0 <= i < |items| ==> DistinctKeys(items[i])
    case Obj(members) =>
      Distinct(Keys(members)) && forall i :: 0 <= i < |members| ==> DistinctKeys(members[i].1)
    case _ => true
  }

  /** JSON data with possible `undefined` members, which is all the panel shows. */
  predicate PlainData(v: Json)
    decreases v
  {
    match v
    case Arr(items) => forall i :: 0 <= i < |items| ==> PlainData(items[i])
    case Obj(members) => forall i :: 0 <= i < |members| ==> PlainData(members[i].1)
    case Opaque(_) => false
    case _ => true
  }

  predicate HasProto(members: seq<(string, Json)>) {
    exists i :: 0 <= i < |members| && members[i].0 == "__proto__"
  }

  /** `next[key] = value`: replaces the member with that key or appends one; no member for `__proto__`. */
  function Assign(next: seq<(string, Json)>, key: string, value: Json): seq<(string, Json)> {
    if key == "__proto__" then next
    else if exists i :: 0 <= i < |next| && next[i].0 == key then
      seq(|next|, i requires 0 <= i < |next| => if next[i].0 == key then (key, value) else next[i])
    else next + [(key, value)]
  }

  /** `redactDebugJson` itself. */
  method RedactDebugJson(value: Json) returns (r: Json)
    requires DistinctKeys(value)
    ensures r == Redact(value)
    decreases value
  {
    match value {
      case Arr(items) =>
        var mapped: seq<Json> := [];
        for i := 0 to |items|
          invariant mapped == seq(i, k requires 0 <= k < i => Redact(items[k]))
        {
          var item := RedactDebugJson(items[i]);
          mapped := mapped + [item];
        }
        r := Arr(mapped);
      case Obj(members) =>
        var next: seq<(string, Json)> := [];
        assert Keys(RedactedPairs(members)) == Keys(members);
        for i := 0 to |members|
          invariant next == Assigned(RedactedPairs(members)[..i])
        {
          var (key, child) := members[i];
          AssignNext(RedactedPairs(members), i);
          if key == "share_link" {
            next := Assign(next, key, Str("[REDACTED_SHARE_LINK]"));
          } else if SecretName(key) {
            next := Assign(next, key, Str("[REDACTED]"));
          } else {
            var redacted := RedactDebugJson(child);
            next := Assign(next, key, redacted);
          }
        }
        assert RedactedPairs(members)[..|members|] == RedactedPairs(members);
        r := Obj(next);
      case Str(s) =>
        r := Str(RedactText(s));
      case Undefined =>
        r := Str("undefined");
      case Opaque(text) =>
        r := Str(text);
      case _ =>
        r := value;
    }
  }

  /** With distinct keys one assignment extends the assigned prefix by one pair. */
  lemma AssignNext(pairs: seq<(string, Json)>, i: nat)
    requires i < |pairs| && Distinct(Keys(pairs))
    ensures Assigned(pairs[..i + 1]) == Assign(Assigned(pairs[..i]), pairs[i].0, pairs[i].1)
  {
    assert pairs[..i + 1][..i] == pairs[..i];
    forall m | m in Assigned(pairs[..i]) ensures m.0 != pairs[i].0 {
      var k :| 0 <= k < i && pairs[k] == m;
      assert Keys(pairs)[k] != Keys(pairs)[i];
    }
  }

  /** What the debug panel may show: every value under `share_link` or a secret name is a notice, no text
      contains a VLESS link, and no long text mentions a secret. */
  ghost predicate Presentable(v: Json)
    decreases v, 3
  {
    match v
    case Str(s) => !Contains(s, "vless://") && !(|s| > 160 && ContainsAnyFolded(s, LONG_TEXT_WORDS))
    case Arr(items) => forall i :: 0 <= i < |items| ==> Presentable(items[i])
    case Obj(members) =>
      !HasProto(members) && AllPresentable(members)
    case Undefined | Opaque(_) => false
    case _ => true
  }

  ghost predicate AllPresentable(members: seq<(string, Json)>)
    decreases Obj(members), 2
  {
    forall i :: 0 <= i < |members| ==> PresentableMember(members[i].0, members[i].1)
  }

  ghost predicate PresentableMember(key: string, child: Json)
    decreases child, 4
  {
    if key == "share_link" then child == Str("[REDACTED_SHARE_LINK]")
    else if SecretName(key) then child == Str("[REDACTED]")
    else Presentable(child)
  }

  lemma NoticesPlain()
    ensures RedactText("[REDACTED_LINK]") == "[REDACTED_LINK]" && RedactText("[REDACTED]") == "[REDACTED]"
    ensures RedactText("undefined") == "undefined"
    ensures !Contains("[REDACTED_LINK]", "vless://") && !Contains("[REDACTED]", "vless://")
            && !Contains("undefined", "vless://")
  {
    if Contains("[REDACTED_LINK]", "vless://") { OccurrenceBringsChars("[REDACTED_LINK]", "vless://", 0); }
    if Contains("[REDACTED]", "vless://") { OccurrenceBringsChars("[REDACTED]", "vless://", 0); }
    if Contains("undefined", "vless://") { OccurrenceBringsChars("undefined", "vless://", 0); }
  }

  /** Whatever the depth, plain data is presentable after redaction. */
  lemma {:induction false} RedactPresentable(v: Json)
    requires PlainData(v)
    ensures Presentable(Redact(v))
    decreases v
  {
    match v
    case Arr(items) =>
      forall i | 0 <= i < |items| ensures Presentable(Redact(items[i])) { RedactPresentable(items[i]); }
    case Obj(members) =>
      forall i | 0 <= i < |members| ensures Presentable(Redact(members[i].1)) { RedactPresentable(members[i].1); }
      PairsPresentable(members);
      AssignedPresentable(RedactedPairs(members));
    case _ => NoticesPlain();
  }

  lemma MemberPresentable(key: string, child: Json)
    requires Presentable(Redact(child))
    ensures PresentableMember(key, RedactMember(key, child))
  {
  }

  lemma PairsPresentable(members: seq<(string, Json)>)
    requires forall i :: 0 <= i < |members| ==> Presentable(Redact(members[i].1))
    ensures AllPresentable(RedactedPairs(members))
  {
    forall i | 0 <= i < |members|
      ensures PresentableMember(RedactedPairs(members)[i].0, RedactedPairs(members)[i].1)
    {
      MemberPresentable(members[i].0, members[i].1);
    }
  }

  lemma AssignedPresentable(pairs: seq<(string, Json)>)
    requires AllPresentable(pairs)
    ensures !HasProto(Assigned(pairs)) && AllPresentable(Assigned(pairs))
  {
    var kept := Assigned(pairs);
    forall i | 0 <= i < |kept| ensures kept[i].0 != "__proto__" && PresentableMember(kept[i].0, kept[i].1) {
      assert kept[i] in kept;
      var k :| 0 <= k < |pairs| && pairs[k] == kept[i];
    }
  }

  /** Assignment loses members exactly when one of them is called `__proto__`. */
  lemma {:induction false} AssignedKeeps(members: seq<(string, Json)>)
    ensures if HasProto(members) then |Assigned(members)| < |members| else Assigned(members) == members
  {
    if members != [] {
      var n := |members| - 1;
      AssignedKeeps(members[..n]);
      HasProtoSnoc(members[..n], members[n]);
      assert members == members[..n] + [members[n]];
    }
  }

  lemma HasProtoSnoc(members: seq<(string, Json)>, m: (string, Json))
    ensures HasProto(members + [m]) <==> HasProto(members) || m.0 == "__proto__"
  {
    var more := members + [m];
    if HasProto(members) {
      var i :| 0 <= i < |members| && members[i].0 == "__proto__";
      assert more[i].0 == "__proto__";
    }
    if m.0 == "__proto__" {
      assert more[|members|].0 == "__proto__";
    }
  }

  /** The redactor leaves a value alone exactly when it is presentable. */
  lemma {:induction false} RedactKeepsExactlyPresentable(v: Json)
    requires PlainData(v)
    ensures Redact(v) == v <==> Presentable(v)
    decreases v
  {
    match v
    case Str(s) => RedactPresentable(v);
    case Arr(items) =>
      forall i | 0 <= i < |items| ensures Redact(items[i]) == items[i] <==> Presentable(items[i]) {
        RedactKeepsExactlyPresentable(items[i]);
      }
      var r := Redact(v).items;
      assert r == items <==> forall i :: 0 <= i < |items| ==> r[i] == items[i];
    case Obj(members) =>
      forall i | 0 <= i < |members| ensures Redact(members[i].1) == members[i].1 <==> Presentable(members[i].1) {
        RedactKeepsExactlyPresentable(members[i].1);
      }
      KeepsObject(members);
    case _ =>
  }

  lemma KeepsObject(members: seq<(string, Json)>)
    requires forall i :: 0 <= i < |members| ==> (Redact(members[i].1) == members[i].1 <==> Presentable(members[i].1))
    ensures Redact(Obj(members)) == Obj(members) <==> Presentable(Obj(members))
  {
    var pairs := RedactedPairs(members);
    AssignedKeeps(pairs);
    SameKeysSameProto(members, pairs);
    forall i | 0 <= i < |members|
      ensures pairs[i] == members[i] <==> PresentableMember(members[i].0, members[i].1)
    {
      PairKept(members, i);
    }
    PairsKept(pairs, members);
  }

  lemma SameKeysSameProto(a: seq<(string, Json)>, b: seq<(string, Json)>)
    requires |a| == |b| && forall i :: 0 <= i < |a| ==> a[i].0 == b[i].0
    ensures HasProto(a) == HasProto(b)
  {
    if HasProto(a) {
      var i :| 0 <= i < |a| && a[i].0 == "__proto__";
      assert b[i].0 == "__proto__";
    }
    if HasProto(b) {
      var i :| 0 <= i < |b| && b[i].0 == "__proto__";
      assert a[i].0 == "__proto__";
    }
  }

  lemma MemberKept(key: string, child: Json)
    requires Redact(child) == child <==> Presentable(child)
    ensures RedactMember(key, child) == child <==> PresentableMember(key, child)
  {
  }

  lemma PairKept(members: seq<(string, Json)>, i: nat)
    requires i < |members| && (Redact(members[i].1) == members[i].1 <==> Presentable(members[i].1))
    ensures RedactedPairs(members)[i] == members[i] <==> PresentableMember(members[i].0, members[i].1)
  {
    MemberKept(members[i].0, members[i].1);
  }

  lemma PairsKept(pairs: seq<(string, Json)>, members: seq<(string, Json)>)
    requires |pairs| == |members|
    requires forall i :: 0 <= i < |members| ==>
               (pairs[i] == members[i] <==> PresentableMember(members[i].0, members[i].1))
    ensures pairs == members <==> AllPresentable(members)
  {
    assert pairs == members <==> forall i :: 0 <= i < |members| ==> pairs[i] == members[i];
  }

  /** Redacting twice is redacting once, on plain data of any depth. */
  lemma RedactIdempotent(v: Json)
    requires PlainData(v)
    ensures Redact(Redact(v)) == Redact(v)
  {
    RedactPresentable(v);
    PresentableIsPlain(Redact(v));
    RedactKeepsExactlyPresentable(Redact(v));
  }

  lemma {:induction false} PresentableIsPlain(v: Json)
    requires Presentable(v)
    ensures PlainData(v)
    decreases v
  {
    match v
    case Arr(items) =>
      forall i | 0 <= i < |items| ensures PlainData(items[i]) { PresentableIsPlain(items[i]); }
    case Obj(members) =>
      forall i | 0 <= i < |members| ensures PlainData(members[i].1) {
        assert PresentableMember(members[i].0, members[i].1);
        if members[i].1 != Str("[REDACTED_SHARE_LINK]") && members[i].1 != Str("[REDACTED]") {
          PresentableIsPlain(members[i].1);
        }
      }
    case _ =>
  }

  /** The redactor goes into the values of these members. */
  predicate Entered(key: string) {
    key != "share_link" && !SecretName(key)
  }

  /** Same array lengths and same keys in the same order, in every array and object the redactor goes into. */
  predicate SameShape(v: Json, r: Json)
    decreases v, 3
  {
    match v
    case Arr(items) =>
      r.Arr? && |r.items| == |items| && forall i :: 0 <= i < |items| ==> SameShape(items[i], r.items[i])
    case Obj(members) => r.Obj? && |r.members| == |members| && SameShapeMembers(members, r.members)
    case _ => !r.Arr? && !r.Obj?
  }

  predicate SameShapeMembers(members: seq<(string, Json)>, kept: seq<(string, Json)>)
    requires |kept| == |members|
    decreases Obj(members), 2
  {
    forall i :: 0 <= i < |members| ==>
      kept[i].0 == members[i].0 && SameShapeMember(members[i].0, members[i].1, kept[i].1)
  }

  predicate SameShapeMember(key: string, child: Json, kept: Json)
    decreases child, 4
  {
    Entered(key) ==> SameShape(child, kept)
  }

  /** No object the redactor goes into has an own member called `__proto__`. */
  predicate ProtoFree(v: Json)
    decreases v, 3
  {
    match v
    case Arr(items) => forall i :: 0 <= i < |items| ==> ProtoFree(items[i])
    case Obj(members) => !HasProto(members) && ProtoFreeMembers(members)
    case _ => true
  }

  predicate ProtoFreeMembers(members: seq<(string, Json)>)
    decreases Obj(members), 2
  {
    forall i :: 0 <= i < |members| ==> ProtoFreeMember(members[i].0, members[i].1)
  }

  predicate ProtoFreeMember(key: string, child: Json)
    decreases child, 4
  {
    Entered(key) ==> ProtoFree(child)
  }

  lemma MemberShape(key: string, child: Json)
    requires SameShape(child, Redact(child)) <==> ProtoFree(child)
    ensures SameShapeMember(key, child, RedactMember(key, child)) <==> ProtoFreeMember(key, child)
  {
  }

  /** At any depth, the result has the shape of the value exactly when no object that is entered has a member
      `__proto__`, which the redactor drops. */
  lemma {:induction false} RedactKeepsShape(v: Json)
    ensures SameShape(v, Redact(v)) <==> ProtoFree(v)
    decreases v
  {
    match v
    case Arr(items) =>
      forall i | 0 <= i < |items| ensures SameShape(items[i], Redact(items[i])) <==> ProtoFree(items[i]) {
        RedactKeepsShape(items[i]);
      }
      assert forall i :: 0 <= i < |items| ==> Redact(v).items[i] == Redact(items[i]);
    case Obj(members) =>
      forall i | 0 <= i < |members|
        ensures SameShapeMember(members[i].0, members[i].1, RedactedPairs(members)[i].1)
                <==> ProtoFreeMember(members[i].0, members[i].1)
      {
        RedactKeepsShape(members[i].1);
        MemberShape(members[i].0, members[i].1);
      }
      MembersShape(members, RedactedPairs(members));
      SameKeysSameProto(members, RedactedPairs(members));
      ObjectKeepsShape(members, RedactedPairs(members));
    case _ =>
  }

  lemma MembersShape(members: seq<(string, Json)>, pairs: seq<(string, Json)>)
    requires |pairs| == |members| && forall i :: 0 <= i < |members| ==> pairs[i].0 == members[i].0
    requires forall i :: 0 <= i < |members| ==>
               (SameShapeMember(members[i].0, members[i].1, pairs[i].1)
                <==> ProtoFreeMember(members[i].0, members[i].1))
    ensures SameShapeMembers(members, pairs) <==> ProtoFreeMembers(members)
  {
  }

  lemma ObjectKeepsShape(members: seq<(string, Json)>, pairs: seq<(string, Json)>)
    requires |pairs| == |members| && HasProto(members) == HasProto(pairs)
    requires SameShapeMembers(members, pairs) <==> ProtoFreeMembers(members)
    ensures SameShape(Obj(members), Obj(Assigned(pairs))) <==> ProtoFree(Obj(members))
  {
    AssignedKeeps(pairs);
  }

  /** A document with an own `__proto__` key, as `JSON.parse` can produce, loses it. */
  lemma ProtoMemberIsLost()
    ensures Keys(Redact(Obj([("__proto__", Null)])).members) == []
  {
    var pairs := RedactedPairs([("__proto__", Null)]);
    assert Assigned(pairs[..0]) == [];
  }

  // ---------------------------------------------------------------- what a value becomes

  /** The words in a member name that hide its value, in any case. */
  lemma SecretNameIff(key: string)
    ensures SecretName(key) <==>
      || ContainsFolded(key, "token") || ContainsFolded(key, "password") || ContainsFolded(key, "private_key")
      || ContainsFolded(key, "privatekey") || ContainsFolded(key, "secret") || ContainsFolded(key, "install_command")
  {
    assert SECRET_WORDS[0] == "token" && SECRET_WORDS[1] == "password" && SECRET_WORDS[2] == "private_key";
    assert SECRET_WORDS[3] == "privatekey" && SECRET_WORDS[4] == "secret" && SECRET_WORDS[5] == "install_command";
  }

  /** A text is replaced by the link notice exactly for a link in lower case, else by the secret notice for more
      than 160 characters that mention a secret in any case, else kept. */
  ghost predicate TextBecomes(s: string, r: string) {
    if Contains(s, "vless://") then r == "[REDACTED_LINK]"
    else if |s| > 160 && (ContainsFolded(s, "token") || ContainsFolded(s, "secret") || ContainsFolded(s, "password")
                          || ContainsFolded(s, "private"))
    then r == "[REDACTED]"
    else r == s
  }

  lemma RedactedText(s: string)
    ensures TextBecomes(s, RedactText(s))
  {
    assert LONG_TEXT_WORDS[0] == "token" && LONG_TEXT_WORDS[1] == "secret";
    assert LONG_TEXT_WORDS[2] == "password" && LONG_TEXT_WORDS[3] == "private";
  }

  /** How the redactor changes a value at every depth: texts as above, an undefined value and one JSON has no text
      for to its text, numbers, booleans and null not at all, arrays entry by entry, objects to their members
      without the prototype key, in order. */
  ghost predicate Becomes(v: Json, r: Json)
    decreases v, 2
  {
    match v
    case Str(s) => r.Str? && TextBecomes(s, r.s)
    case Arr(items) =>
      r.Arr? && |r.items| == |items| && forall i :: 0 <= i < |items| ==> Becomes(items[i], r.items[i])
    case Obj(members) => r.Obj? && MembersBecome(members, |members|, r.members)
    case Undefined => r == Str("undefined")
    case Opaque(text) => r == Str(text)
    case _ => r == v
  }

  /** The first `n` members become these. */
  ghost predicate MembersBecome(members: seq<(string, Json)>, n: nat, kept: seq<(string, Json)>)
    requires n <= |members|
    decreases Obj(members), 1, n
  {
    if n == 0 then kept == []
    else if members[n - 1].0 == "__proto__" then MembersBecome(members, n - 1, kept)
    else kept != [] && kept[|kept| - 1].0 == members[n - 1].0
         && MemberBecomes(members[n - 1].0, members[n - 1].1, kept[|kept| - 1].1)
         && MembersBecome(members, n - 1, kept[..|kept| - 1])
  }

  /** What the value under a name becomes. */
  ghost predicate MemberBecomes(key: string, child: Json, r: Json)
    decreases child, 3
  {
    if key == "share_link" then r == Str("[REDACTED_SHARE_LINK]")
    else if SecretName(key) then r == Str("[REDACTED]")
    else Becomes(child, r)
  }

  lemma MemberRedacted(key: string, child: Json)
    requires Becomes(child, Redact(child))
    ensures MemberBecomes(key, child, RedactMember(key, child))
  {
  }

  lemma {:induction false} AssignedBecome(members: seq<(string, Json)>, n: nat)
    requires n <= |members|
    requires forall i :: 0 <= i < |members| ==> MemberBecomes(members[i].0, members[i].1, RedactedPairs(members)[i].1)
    ensures MembersBecome(members, n, Assigned(RedactedPairs(members)[..n]))
  {
    if n > 0 {
      AssignedBecome(members, n - 1);
      var pairs := RedactedPairs(members)[..n];
      assert pairs[..n - 1] == RedactedPairs(members)[..n - 1] && pairs[n - 1] == RedactedPairs(members)[n - 1];
      var kept := Assigned(pairs[..n - 1]);
      assert (kept + [pairs[n - 1]])[..|kept|] == kept;
    }
  }

  /** Every value becomes just that, at every depth. */
  lemma {:induction false} RedactBecomes(v: Json)
    ensures Becomes(v, Redact(v))
    decreases v
  {
    match v
    case Str(s) => RedactedText(s);
    case Arr(items) =>
      forall i | 0 <= i < |items| ensures Becomes(items[i], Redact(items[i])) {
        RedactBecomes(items[i]);
      }
    case Obj(members) =>
      forall i | 0 <= i < |members| ensures MemberBecomes(members[i].0, members[i].1, RedactedPairs(members)[i].1) {
        RedactBecomes(members[i].1);
        MemberRedacted(members[i].0, members[i].1);
      }
      AssignedBecome(members, |members|);
      assert RedactedPairs(members)[..|members|] == RedactedPairs(members);
    case _ =>
  }
}
