/** The redactor of the task history: `redactString` and `sanitizeValue`. */
module TaskRedaction {
  import opened Text
  import opened Json
  import Ports

  const SECRET_KEYS: seq<string> :=
    ["private", "private_key", "passphrase", "password", "passwd", "secret", "token", "cookie", "session",
     "admin_password_hash", "ssh_key"]

  /** The protocol alternatives of `linkPattern`, in its order. */
  const PROTOCOLS: seq<string> := ["vless", "vmess", "trojan", "ss"]

  /** The text the link pattern matches with alternative `k`, lower case. */
  function LinkText(k: nat): (r: string)
    requires k < |PROTOCOLS|
    ensures |r| > 4 && r[|r| - 3] == ':' && '.' !in r
  {
    PROTOCOLS[k] + "://"
  }

  const KEY_KINDS: seq<string> := ["", "openssh", "rsa", "ec", "dsa"]

  /** The texts `privateKeyPattern` matches, lower case: an optional kind, then an optional space. */
  function KeyText(kind: nat, spaced: bool): (r: string)
    requires kind < |KEY_KINDS|
    ensures |r| > 4 && r[0] == 'b' && r[|r| - 1] == 'y' && '.' !in r
  {
    "begin " + KEY_KINDS[kind] + (if spaced then " " else "") + "private key"
  }

  predicate SecretKey(key: string) {
    ContainsAnyFolded(key, SECRET_KEYS)
  }

  /** Alternative `k` of the link pattern matches at `i`. */
  predicate MatchAt(s: string, i: nat, k: nat) {
    k < |PROTOCOLS| && At(LowerText(s), LinkText(k), i)
  }

  /** The link pattern matches at `i`. */
  predicate LinkAt(s: string, i: nat) {
    exists k: nat :: k < |PROTOCOLS| && MatchAt(s, i, k)
  }

  predicate HasLink(s: string) {
    exists i: nat :: i <= |s| && LinkAt(s, i)
  }

  predicate HasPrivateKey(s: string) {
    exists kind, spaced :: 0 <= kind < |KEY_KINDS| && ContainsFolded(s, KeyText(kind, spaced))
  }

  /** The first alternative from `k` on that matches at `i`: alternatives are tried in order. */
  function FirstAlternative(s: string, i: nat, k: nat): (r: nat)
    requires k <= |PROTOCOLS|
    ensures k <= r <= |PROTOCOLS| && (r < |PROTOCOLS| ==> MatchAt(s, i, r))
    ensures forall m: nat :: k <= m < r ==> !MatchAt(s, i, m)
    decreases |PROTOCOLS| - k
  {
    if k == |PROTOCOLS| || MatchAt(s, i, k) then k else FirstAlternative(s, i, k + 1)
  }

  /** The leftmost match from `i` on, or `|s| + 1` when there is none. */
  function FirstLink(s: string, i: nat): (r: nat)
    requires i <= |s| + 1
    ensures i <= r <= |s| + 1 && (r <= |s| ==> LinkAt(s, r))
    ensures forall j: nat :: i <= j < r ==> !LinkAt(s, j)
    decreases |s| + 1 - i
  {
    if i == |s| + 1 || LinkAt(s, i) then i else FirstLink(s, i + 1)
  }

  lemma NameAt(s: string, i: nat, k: nat)
    requires MatchAt(s, i, k)
    ensures i + |PROTOCOLS[k]| <= |s| && LowerText(s[i..i + |PROTOCOLS[k]|]) == PROTOCOLS[k]
  {
    var name := PROTOCOLS[k];
    assert LinkText(k)[..|name|] == name;
    assert LowerText(s)[i..i + |LinkText(k)|][..|name|] == LowerText(s)[i..i + |name|];
    assert LowerText(s[i..i + |name|]) == LowerText(s)[i..i + |name|];
  }

  /** The protocol name captured when the pattern matches at `i`: the first alternative that matches. */
  function ProtocolAt(s: string, i: nat): (r: string)
    requires LinkAt(s, i)
    ensures LowerText(r) in PROTOCOLS
  {
    var k := FirstAlternative(s, i, 0);
    NameAt(s, i, k);
    s[i..i + |PROTOCOLS[k]|]
  }

  /** The capture of the leftmost match; `node` when there is none. */
  function Protocol(s: string): (r: string)
    ensures r == "node" || LowerText(r) in PROTOCOLS
  {
    var j := FirstLink(s, 0);
    if j <= |s| then ProtocolAt(s, j) else "node"
  }

  const CUT_TAIL: string := "... [truncated]"

  function RedactString(value: string): string {
    if HasPrivateKey(value) then "[redacted private key]"
    else if HasLink(value) then "[redacted " + Protocol(value) + " link]"
    else if |value| > 180 then value[..140] + CUT_TAIL
    else value
  }

  function More(n: nat): string {
    "[" + Ports.Decimal(n) + " more item(s) truncated]"
  }

  function Visible(items: seq<Json>): (n: nat)
    ensures n <= |items| && n <= 8
  {
    if |items| > 8 then 8 else |items|
  }

  function Sanitize(value: Json, key: string, depth: nat): Json
    decreases value
  {
    if SecretKey(key) then Str("[redacted]")
    else match value
      case Null | Undefined | Num(_) | Bool(_) => value
      case Str(s) => Str(RedactString(s))
      case Arr(items) =>
        if depth >= 4 then Str("[nested data truncated]")
        else
          var visible := seq(Visible(items), i requires 0 <= i < Visible(items) => Sanitize(items[i], key, depth + 1));
          Arr(if |items| > 8 then visible + [Str(More(|items| - 8))] else visible)
      case Obj(members) =>
        if depth >= 4 then Str("[nested data truncated]")
        else Obj(seq(|members|, i requires 0 <= i < |members| =>
               (members[i].0, Sanitize(members[i].1, members[i].0, depth + 1))))
      case Opaque(_) => Str(if depth >= 4 then "[nested data truncated]" else "[unsupported value]")
  }

  /** No pattern of the redactor occurs in the text. */
  predicate SafeText(s: string) {
    !HasPrivateKey(s) && !HasLink(s)
  }

  predicate NoLetter(s: string, c: char) {
    forall i :: 0 <= i < |s| ==> Lower(s[i]) != c
  }

  lemma FoldedOccurrenceBringsLetter(s: string, p: string, j: nat)
    requires j < |p| && ContainsFolded(s, p)
    ensures !NoLetter(s, p[j])
  {
    OccurrenceBringsChars(LowerText(s), p, j);
    var i :| 0 <= i < |s| && LowerText(s)[i] == p[j];
    assert Lower(s[i]) == p[j];
  }

  lemma SomeAlternative(s: string) returns (k: nat)
    requires HasLink(s)
    ensures k < |PROTOCOLS| && ContainsFolded(s, LinkText(k))
  {
    var i: nat :| i <= |s| && LinkAt(s, i);
    k :| k < |PROTOCOLS| && MatchAt(s, i, k);
  }

  lemma AlternativeIsLink(s: string, k: nat)
    requires k < |PROTOCOLS| && ContainsFolded(s, LinkText(k))
    ensures HasLink(s)
  {
    var i :| 0 <= i <= |LowerText(s)| && At(LowerText(s), LinkText(k), i);
    assert MatchAt(s, i, k);
    assert LinkAt(s, i);
  }

  /** A text without a colon, and without a `y` or without a `b`, matches nothing. */
  lemma SafeByLetters(s: string)
    requires NoLetter(s, ':') && (NoLetter(s, 'y') || NoLetter(s, 'b'))
    ensures SafeText(s)
  {
    if HasLink(s) {
      var k := SomeAlternative(s);
      FoldedOccurrenceBringsLetter(s, LinkText(k), |LinkText(k)| - 3);
    }
    if kind, spaced :| 0 <= kind < |KEY_KINDS| && ContainsFolded(s, KeyText(kind, spaced)) {
      var p := KeyText(kind, spaced);
      FoldedOccurrenceBringsLetter(s, p, 0);
      FoldedOccurrenceBringsLetter(s, p, |p| - 1);
    }
  }

  lemma LinkNoticeSafe(p: string)
    requires p == "node" || LowerText(p) in PROTOCOLS
    ensures SafeText("[redacted " + p + " link]") && |"[redacted " + p + " link]"| <= 180
  {
    assert NoLetter(p, ':') && NoLetter(p, 'y') by {
      forall i | 0 <= i < |p| ensures Lower(p[i]) != ':' && Lower(p[i]) != 'y' {
        assert LowerText(p)[i] == Lower(p[i]);
      }
    }
    SafeByLetters("[redacted " + p + " link]");
  }

  /** Truncation cannot complete a pattern across the cut: the tail starts with a full stop. */
  lemma CutStaysClear(s: string, p: string, j: nat)
    requires |s| > 180 && j < |p| && '.' !in p && p[j] in [':', 'b']
    requires ContainsFolded(s[..140] + CUT_TAIL, p)
    ensures ContainsFolded(s, p)
  {
    assert LowerText(s[..140] + CUT_TAIL) == LowerText(s)[..140] + CUT_TAIL;
    OccurrenceAcrossCut(LowerText(s), 140, CUT_TAIL, p);
    if Contains(CUT_TAIL, p) {
      OccurrenceBringsChars(CUT_TAIL, p, j);
    }
  }

  lemma CutStaysSafe(s: string)
    requires |s| > 180 && SafeText(s)
    ensures SafeText(s[..140] + CUT_TAIL)
  {
    var t := s[..140] + CUT_TAIL;
    if HasLink(t) {
      var k := SomeAlternative(t);
      CutStaysClear(s, LinkText(k), |LinkText(k)| - 3);
      AlternativeIsLink(s, k);
    }
    if kind, spaced :| 0 <= kind < |KEY_KINDS| && ContainsFolded(t, KeyText(kind, spaced)) {
      CutStaysClear(s, KeyText(kind, spaced), 0);
    }
  }

  lemma RedactStringSafe(s: string)
    ensures SafeText(RedactString(s)) && |RedactString(s)| <= 180
  {
    if HasPrivateKey(s) {
      SafeByLetters("[redacted private key]");
    } else if HasLink(s) {
      LinkNoticeSafe(Protocol(s));
    } else if |s| > 180 {
      CutStaysSafe(s);
    }
  }

  /** For every text: the output matches neither pattern, has at most 180 characters, and is left alone
      by a second pass. */
  lemma RedactStringSafeAndStable(s: string)
    ensures SafeText(RedactString(s))
    ensures |RedactString(s)| <= 180
    ensures RedactString(RedactString(s)) == RedactString(s)
  {
    RedactStringSafe(s);
    SafeShortTextKept(RedactString(s));
  }

  /** Exactly the harmless texts of at most 180 characters are shown as they are; a longer harmless text
      keeps its first 140 characters. */
  lemma SafeShortTextKept(s: string)
    ensures RedactString(s) == s <==> SafeText(s) && |s| <= 180
    ensures SafeText(s) && |s| > 180 ==> RedactString(s)[..140] == s[..140]
  {
    RedactStringSafe(s);
  }

  /** A text with a link and no private key is replaced by a notice that names the protocol of its
      leftmost link; the `node` fallback is never shown. */
  lemma LinkNoticeNamesLeftmost(s: string) returns (j: nat)
    requires HasLink(s) && !HasPrivateKey(s)
    ensures j <= |s| && LinkAt(s, j) && RedactString(s) == "[redacted " + ProtocolAt(s, j) + " link]"
    ensures forall k: nat :: k < j ==> !LinkAt(s, k)
  {
    j := FirstLink(s, 0);
  }

  lemma NestedNoticeSafe()
    ensures SafeText("[nested data truncated]")
  {
    SafeByLetters("[nested data truncated]");
  }

  lemma NoticesSafe()
    ensures SafeText("[nested data truncated]") && SafeText("[unsupported value]")
  {
    NestedNoticeSafe();
    SafeByLetters("[unsupported value]");
  }

  lemma CountNoticeSafe(n: nat)
    ensures SafeText(More(n))
  {
    Ports.DecimalReadsBack(n);
    SafeByLetters(More(n));
  }

  /** What the task history may show: every value under a secret key is the notice, no string matches a
      pattern, strings have at most 180 characters (the count notice aside), arrays have at most 9 entries
      and containers nest at most 4 deep. */
  ghost predicate Presentable(v: Json, key: string, depth: nat)
    decreases v
  {
    if SecretKey(key) then v == Str("[redacted]")
    else match v
      case Str(s) => SafeText(s) && (|s| <= 180 || exists n: nat :: s == More(n))
      case Arr(items) =>
        depth < 4 && |items| <= 9 && forall i :: 0 <= i < |items| ==> Presentable(items[i], key, depth + 1)
      case Obj(members) =>
        depth < 4 && forall i :: 0 <= i < |members| ==> Presentable(members[i].1, members[i].0, depth + 1)
      case Opaque(_) => false
      case _ => true
  }

  lemma PresentsArray(items: seq<Json>, key: string, depth: nat)
    requires forall i :: 0 <= i < |items| ==> Presentable(Sanitize(items[i], key, depth + 1), key, depth + 1)
    ensures Presentable(Sanitize(Arr(items), key, depth), key, depth)
  {
    NoticesSafe();
    if |items| > 8 { CountNoticeSafe(|items| - 8); }
  }

  lemma PresentsObject(members: seq<(string, Json)>, key: string, depth: nat)
    requires forall i :: 0 <= i < |members| ==>
               Presentable(Sanitize(members[i].1, members[i].0, depth + 1), members[i].0, depth + 1)
    ensures Presentable(Sanitize(Obj(members), key, depth), key, depth)
  {
    NoticesSafe();
  }

  lemma {:induction false} ItemsPresentable(v: Json, key: string, depth: nat)
    requires v.Arr?
    ensures Presentable(Sanitize(v, key, depth), key, depth)
    decreases v, 0
  {
    forall i | 0 <= i < |v.items| ensures Presentable(Sanitize(v.items[i], key, depth + 1), key, depth + 1) {
      SanitizePresentable(v.items[i], key, depth + 1);
    }
    PresentsArray(v.items, key, depth);
  }

  lemma {:induction false} MembersPresentable(v: Json, key: string, depth: nat)
    requires v.Obj?
    ensures Presentable(Sanitize(v, key, depth), key, depth)
    decreases v, 0
  {
    var members := v.members;
    forall i | 0 <= i < |members|
      ensures Presentable(Sanitize(members[i].1, members[i].0, depth + 1), members[i].0, depth + 1)
    {
      SanitizePresentable(members[i].1, members[i].0, depth + 1);
    }
    PresentsObject(members, key, depth);
  }

  lemma TextPresentable(v: Json, key: string, depth: nat)
    requires !v.Arr? && !v.Obj?
    ensures Presentable(Sanitize(v, key, depth), key, depth)
  {
    NoticesSafe();
    if v.Str? {
      RedactStringSafeAndStable(v.s);
    }
  }

  /** Every value is presentable after sanitizing. */
  lemma {:induction false} SanitizePresentable(v: Json, key: string, depth: nat)
    ensures Presentable(Sanitize(v, key, depth), key, depth)
    decreases v, 1
  {
    match v
    case Arr(_) => ItemsPresentable(v, key, depth);
    case Obj(_) => MembersPresentable(v, key, depth);
    case _ => TextPresentable(v, key, depth);
  }

  /** Data the redactor has no objection to. */
  ghost predicate Unobjectionable(v: Json, key: string, depth: nat)
    decreases v
  {
    if SecretKey(key) then v == Str("[redacted]")
    else match v
      case Str(s) => SafeText(s) && |s| <= 180
      case Arr(items) =>
        && depth < 4 && |items| <= 9 && (|items| == 9 ==> items[8] == Str(More(1)))
        && forall i :: 0 <= i < Visible(items) ==> Unobjectionable(items[i], key, depth + 1)
      case Obj(members) =>
        depth < 4 && forall i :: 0 <= i < |members| ==> Unobjectionable(members[i].1, members[i].0, depth + 1)
      case Opaque(_) => false
      case _ => true
  }

  /** The redactor changes a value exactly when there is something to object to. */
  lemma {:induction false} SanitizeKeepsExactlyUnobjectionable(v: Json, key: string, depth: nat)
    ensures Sanitize(v, key, depth) == v <==> Unobjectionable(v, key, depth)
    decreases v
  {
    if !SecretKey(key) {
      match v
      case Str(s) => SafeShortTextKept(s);
      case Arr(items) => if depth < 4 { KeepsArray(items, key, depth); }
      case Obj(members) =>
        if depth < 4 {
          forall i | 0 <= i < |members|
            ensures Sanitize(members[i].1, members[i].0, depth + 1) == members[i].1
                    <==> Unobjectionable(members[i].1, members[i].0, depth + 1)
          {
            SanitizeKeepsExactlyUnobjectionable(members[i].1, members[i].0, depth + 1);
          }
          SameItems(Sanitize(v, key, depth).members, members);
        }
      case _ =>
    }
  }

  lemma {:induction false} KeepsArray(items: seq<Json>, key: string, depth: nat)
    requires !SecretKey(key) && depth < 4
    ensures Sanitize(Arr(items), key, depth) == Arr(items) <==> Unobjectionable(Arr(items), key, depth)
    decreases items
  {
    var once := Sanitize(Arr(items), key, depth);
    SanitizedArray(items, key, depth);
    forall i | 0 <= i < Visible(items)
      ensures once.items[i] == items[i] <==> Unobjectionable(items[i], key, depth + 1)
    {
      SanitizeKeepsExactlyUnobjectionable(items[i], key, depth + 1);
    }
    if |once.items| == |items| {
      SameItems(once.items, items);
    }
  }

  /** The arrays the redactor enters have at most 9 entries. Values under a secret key, below the depth
      cut or past the eighth entry are not entered. */
  predicate ShortWhereEntered(v: Json, key: string, depth: nat)
    decreases v
  {
    SecretKey(key) || depth >= 4 ||
    match v
    case Arr(items) =>
      |items| <= 9 && forall i :: 0 <= i < Visible(items) ==> ShortWhereEntered(items[i], key, depth + 1)
    case Obj(members) =>
      forall i :: 0 <= i < |members| ==> ShortWhereEntered(members[i].1, members[i].0, depth + 1)
    case _ => true
  }

  /** Sanitizing leaves only short arrays behind. */
  lemma {:induction false} SanitizeShortens(v: Json, key: string, depth: nat)
    ensures ShortWhereEntered(Sanitize(v, key, depth), key, depth)
    decreases v
  {
    match v
    case Arr(items) =>
      forall i | 0 <= i < |items| ensures ShortWhereEntered(Sanitize(items[i], key, depth + 1), key, depth + 1) {
        SanitizeShortens(items[i], key, depth + 1);
      }
    case Obj(members) =>
      forall i | 0 <= i < |members|
        ensures ShortWhereEntered(Sanitize(members[i].1, members[i].0, depth + 1), members[i].0, depth + 1)
      {
        SanitizeShortens(members[i].1, members[i].0, depth + 1);
      }
    case _ =>
  }

  /** A second pass changes nothing exactly when every array the first pass enters has at most 9 entries. */
  lemma {:induction false} SanitizeIdempotentIffShort(v: Json, key: string, depth: nat)
    ensures Sanitize(Sanitize(v, key, depth), key, depth) == Sanitize(v, key, depth)
            <==> ShortWhereEntered(v, key, depth)
    decreases v
  {
    if SecretKey(key) {
    } else {
      match v
      case Str(s) => RedactStringSafeAndStable(s);
      case Arr(items) => if depth < 4 { SanitizeArrayTwice(items, key, depth); } else { NestedNoticeStable(); }
      case Obj(members) => if depth < 4 { SanitizeObjectTwice(members, key, depth); } else { NestedNoticeStable(); }
      case Opaque(_) => NestedNoticeStable();
      case _ =>
    }
  }

  lemma NestedNoticeStable()
    ensures RedactString("[nested data truncated]") == "[nested data truncated]"
    ensures RedactString("[unsupported value]") == "[unsupported value]"
  {
    NoticesSafe();
    SafeShortTextKept("[nested data truncated]");
    SafeShortTextKept("[unsupported value]");
  }

  lemma SanitizedArray(items: seq<Json>, key: string, depth: nat)
    requires !SecretKey(key) && depth < 4
    ensures var r := Sanitize(Arr(items), key, depth);
            && r.Arr?
            && |r.items| == Visible(items) + (if |items| > 8 then 1 else 0)
            && (forall i :: 0 <= i < Visible(items) ==> r.items[i] == Sanitize(items[i], key, depth + 1))
            && (|items| > 8 ==> r.items[8] == Str(More(|items| - 8)))
  {
  }

  lemma {:induction false} SanitizeArrayTwice(items: seq<Json>, key: string, depth: nat)
    requires !SecretKey(key) && depth < 4
    ensures Sanitize(Sanitize(Arr(items), key, depth), key, depth) == Sanitize(Arr(items), key, depth)
            <==> ShortWhereEntered(Arr(items), key, depth)
    decreases items
  {
    var once := Sanitize(Arr(items), key, depth);
    SanitizedArray(items, key, depth);
    SanitizedArray(once.items, key, depth);
    var twice := Sanitize(once, key, depth);
    forall i | 0 <= i < Visible(items)
      ensures once.items[i] == twice.items[i] <==> ShortWhereEntered(items[i], key, depth + 1)
    {
      SanitizeIdempotentIffShort(items[i], key, depth + 1);
    }
    if |items| > 8 {
      MoreInjective(|items| - 8, 1);
    }
    SameItems(once.items, twice.items);
  }

  lemma SameItems<T>(a: seq<T>, b: seq<T>)
    requires |a| == |b|
    ensures a == b <==> forall i :: 0 <= i < |a| ==> a[i] == b[i]
  {
  }

  lemma MoreInjective(m: nat, n: nat)
    ensures More(m) == More(n) <==> m == n
  {
    if More(m) == More(n) {
      var tail := " more item(s) truncated]";
      assert Ports.Decimal(m) == More(m)[1..|More(m)| - |tail|];
      assert Ports.Decimal(n) == More(n)[1..|More(n)| - |tail|];
      Ports.DecimalReadsBack(m);
      Ports.DecimalReadsBack(n);
    }
  }

  lemma {:induction false} SanitizeObjectTwice(members: seq<(string, Json)>, key: string, depth: nat)
    requires !SecretKey(key) && depth < 4
    ensures Sanitize(Sanitize(Obj(members), key, depth), key, depth) == Sanitize(Obj(members), key, depth)
            <==> ShortWhereEntered(Obj(members), key, depth)
    decreases members
  {
    var once := Sanitize(Obj(members), key, depth);
    var twice := Sanitize(once, key, depth);
    forall i | 0 <= i < |members|
      ensures once.members[i] == (members[i].0, Sanitize(members[i].1, members[i].0, depth + 1))
      ensures twice.members[i] == (members[i].0, Sanitize(once.members[i].1, members[i].0, depth + 1))
      ensures once.members[i] == twice.members[i] <==> ShortWhereEntered(members[i].1, members[i].0, depth + 1)
    {
      SanitizeIdempotentIffShort(members[i].1, members[i].0, depth + 1);
    }
    assert once.members == twice.members
      <==> forall i :: 0 <= i < |once.members| ==> once.members[i] == twice.members[i];
  }

  /** For every value the redactor reaches its fixpoint after two passes. */
  lemma SanitizeSettlesAfterTwo(v: Json, key: string, depth: nat)
    ensures var twice := Sanitize(Sanitize(v, key, depth), key, depth);
            Sanitize(twice, key, depth) == twice
  {
    SanitizeShortens(v, key, depth);
    SanitizeIdempotentIffShort(Sanitize(v, key, depth), key, depth);
  }

  /** Objects keep their keys and their order at every level that is entered. */
  lemma SanitizeKeepsKeys(members: seq<(string, Json)>, key: string, depth: nat)
    requires !SecretKey(key) && depth < 4
    ensures Sanitize(Obj(members), key, depth).Obj?
    ensures Keys(Sanitize(Obj(members), key, depth).members) == Keys(members)
  {
    var r := Sanitize(Obj(members), key, depth).members;
    assert forall i :: 0 <= i < |members| ==> r[i].0 == members[i].0;
  }

  /** One pass is not enough on ten entries. */
  lemma TenEntriesNeedTwoPasses()
    ensures var v := Arr(seq(10, _ => Null));
            Sanitize(Sanitize(v, "", 0), "", 0) != Sanitize(v, "", 0)
  {
    var v := Arr(seq(10, _ => Null));
    assert !SecretKey("");
    assert |v.items| == 10;
    SanitizeIdempotentIffShort(v, "", 0);
  }

  // ---------------------------------------------------------------- what a value becomes

  /** The words a secret key holds, in any case. */
  lemma SecretKeyIff(key: string)
    ensures SecretKey(key) <==>
      || ContainsFolded(key, "private") || ContainsFolded(key, "private_key") || ContainsFolded(key, "passphrase")
      || ContainsFolded(key, "password") || ContainsFolded(key, "passwd") || ContainsFolded(key, "secret")
      || ContainsFolded(key, "token") || ContainsFolded(key, "cookie") || ContainsFolded(key, "session")
      || ContainsFolded(key, "admin_password_hash") || ContainsFolded(key, "ssh_key")
  {
    assert SECRET_KEYS[0] == "private" && SECRET_KEYS[1] == "private_key" && SECRET_KEYS[2] == "passphrase";
    assert SECRET_KEYS[3] == "password" && SECRET_KEYS[4] == "passwd" && SECRET_KEYS[5] == "secret";
    assert SECRET_KEYS[6] == "token" && SECRET_KEYS[7] == "cookie" && SECRET_KEYS[8] == "session";
    assert SECRET_KEYS[9] == "admin_password_hash" && SECRET_KEYS[10] == "ssh_key";
  }

  /** The texts a link starts with, in any case. */
  lemma HasLinkIff(s: string)
    ensures HasLink(s) <==>
      || ContainsFolded(s, "vless://") || ContainsFolded(s, "vmess://") || ContainsFolded(s, "trojan://")
      || ContainsFolded(s, "ss://")
  {
    assert LinkText(0) == "vless://" && LinkText(1) == "vmess://";
    assert LinkText(2) == "trojan://" && LinkText(3) == "ss://";
    if HasLink(s) {
      var k := SomeAlternative(s);
      assert k == 0 || k == 1 || k == 2 || k == 3;
    }
    forall k: nat | k < 4 && ContainsFolded(s, LinkText(k)) ensures HasLink(s) {
      AlternativeIsLink(s, k);
    }
  }

  /** The leftmost link of `s` starts at `j`: a protocol name of `n` characters, followed by "://". */
  predicate LinkNameAt(s: string, j: nat, n: nat) {
    && j + n <= |s| && LowerText(s[j..j + n]) in ["vless", "vmess", "trojan", "ss"]
    && (forall i: nat :: i < j ==> !LinkAt(s, i))
  }

  /** What a text becomes: a notice for a private key, else a notice with the name of the leftmost link, else its
      first 140 characters when it has more than 180, else itself. */
  ghost predicate TextBecomes(s: string, r: string) {
    if HasPrivateKey(s) then r == "[redacted private key]"
    else if HasLink(s) then exists j: nat, n: nat :: LinkNameAt(s, j, n) && r == "[redacted " + s[j..j + n] + " link]"
    else if |s| > 180 then r == s[..140] + "... [truncated]"
    else r == s
  }

  lemma ProtocolIsName(s: string, j: nat) returns (n: nat)
    requires LinkAt(s, j)
    ensures j + n <= |s| && LowerText(s[j..j + n]) in PROTOCOLS && ProtocolAt(s, j) == s[j..j + n]
  {
    var k := FirstAlternative(s, j, 0);
    NameAt(s, j, k);
    n := |PROTOCOLS[k]|;
  }

  lemma RedactedLink(s: string)
    requires HasLink(s) && !HasPrivateKey(s)
    ensures TextBecomes(s, RedactString(s))
  {
    var j := LinkNoticeNamesLeftmost(s);
    var n := ProtocolIsName(s, j);
    assert LinkNameAt(s, j, n);
  }

  lemma RedactedText(s: string)
    ensures TextBecomes(s, RedactString(s))
  {
    if !HasPrivateKey(s) && HasLink(s) {
      RedactedLink(s);
    }
  }

  /** How the redactor changes a value, at every depth: under a secret key to the notice; a null, undefined, number or
      boolean not at all; a text as above; a container below the fourth level to the truncation notice; an array
      to its first eight entries, with a notice counting the rest; an object member by member. */
  ghost predicate Becomes(v: Json, r: Json, key: string, depth: nat)
    decreases v
  {
    if SecretKey(key) then r == Str("[redacted]")
    else match v
      case Str(s) => r.Str? && TextBecomes(s, r.s)
      case Arr(items) =>
        if depth >= 4 then r == Str("[nested data truncated]")
        else
          && r.Arr? && |r.items| == (if |items| > 8 then 9 else |items|)
          && (forall i :: 0 <= i < |items| && i < 8 ==> Becomes(items[i], r.items[i], key, depth + 1))
          && (|items| > 8 ==> r.items[8] == Str("[" + Ports.Decimal(|items| - 8) + " more item(s) truncated]"))
      case Obj(members) =>
        if depth >= 4 then r == Str("[nested data truncated]")
        else
          && r.Obj? && |r.members| == |members|
          && forall i :: 0 <= i < |members| ==>
               r.members[i].0 == members[i].0 && Becomes(members[i].1, r.members[i].1, members[i].0, depth + 1)
      case Opaque(_) => r == Str(if depth >= 4 then "[nested data truncated]" else "[unsupported value]")
      case _ => r == v
  }

  lemma ArrayBecomes(items: seq<Json>, key: string, depth: nat)
    requires forall i :: 0 <= i < |items| ==> Becomes(items[i], Sanitize(items[i], key, depth + 1), key, depth + 1)
    ensures Becomes(Arr(items), Sanitize(Arr(items), key, depth), key, depth)
  {
    if !SecretKey(key) && depth < 4 {
      SanitizedArray(items, key, depth);
    }
  }

  lemma ObjectBecomes(members: seq<(string, Json)>, key: string, depth: nat)
    requires forall i :: 0 <= i < |members| ==>
               Becomes(members[i].1, Sanitize(members[i].1, members[i].0, depth + 1), members[i].0, depth + 1)
    ensures Becomes(Obj(members), Sanitize(Obj(members), key, depth), key, depth)
  {
  }

  /** Every value becomes just that, at every depth and under every key. */
  lemma {:induction false} SanitizeBecomes(v: Json, key: string, depth: nat)
    ensures Becomes(v, Sanitize(v, key, depth), key, depth)
    decreases v
  {
    match v
    case Str(s) => RedactedText(s);
    case Arr(items) =>
      forall i | 0 <= i < |items| ensures Becomes(items[i], Sanitize(items[i], key, depth + 1), key, depth + 1) {
        SanitizeBecomes(items[i], key, depth + 1);
      }
      ArrayBecomes(items, key, depth);
    case Obj(members) =>
      forall i | 0 <= i < |members|
        ensures Becomes(members[i].1, Sanitize(members[i].1, members[i].0, depth + 1), members[i].0, depth + 1)
      {
        SanitizeBecomes(members[i].1, members[i].0, depth + 1);
      }
      ObjectBecomes(members, key, depth);
    case _ =>
  }

  /** Null, undefined, numbers and booleans show only where the task sent that same value under a key that is not
      secret. */
  lemma PlainLeafIsItsOwn(v: Json, key: string, depth: nat)
    requires var r := Sanitize(v, key, depth); r.Null? || r.Undefined? || r.Num? || r.Bool?
    ensures Sanitize(v, key, depth) == v && !SecretKey(key)
  {
    SanitizeBecomes(v, key, depth);
  }

  /** The private keys the pattern finds, in any case: "begin", a space, maybe a kind, maybe a space, and "private
      key". */
  lemma HasPrivateKeyIff(s: string)
    ensures HasPrivateKey(s) <==>
      || ContainsFolded(s, "begin private key") || ContainsFolded(s, "begin  private key")
      || ContainsFolded(s, "begin opensshprivate key") || ContainsFolded(s, "begin openssh private key")
      || ContainsFolded(s, "begin rsaprivate key") || ContainsFolded(s, "begin rsa private key")
      || ContainsFolded(s, "begin ecprivate key") || ContainsFolded(s, "begin ec private key")
      || ContainsFolded(s, "begin dsaprivate key") || ContainsFolded(s, "begin dsa private key")
  {
    PlainKeyTexts();
    OpensshKeyTexts();
    RsaKeyTexts();
    EcKeyTexts();
    DsaKeyTexts();
    if HasPrivateKey(s) {
      var kind, spaced :| 0 <= kind < |KEY_KINDS| && ContainsFolded(s, KeyText(kind, spaced));
      assert kind == 0 || kind == 1 || kind == 2 || kind == 3 || kind == 4;
    }
  }

  lemma PlainKeyTexts()
    ensures KeyText(0, false) == "begin private key" && KeyText(0, true) == "begin  private key"
  {
  }

  lemma OpensshKeyTexts()
    ensures KeyText(1, false) == "begin opensshprivate key" && KeyText(1, true) == "begin openssh private key"
  {
  }

  lemma RsaKeyTexts()
    ensures KeyText(2, false) == "begin rsaprivate key" && KeyText(2, true) == "begin rsa private key"
  {
  }

  lemma EcKeyTexts()
    ensures KeyText(3, false) == "begin ecprivate key" && KeyText(3, true) == "begin ec private key"
  {
  }

  lemma DsaKeyTexts()
    ensures KeyText(4, false) == "begin dsaprivate key" && KeyText(4, true) == "begin dsa private key"
  {
  }
}
