/** Forwarding a request to a member cluster through its kube-apiserver, and restoring it there. */
module Dispatch {
  import opened Text
  import opened RequestInfo
  import opened ClusterPath

  /** The values of each header, by canonical name. */
  type Headers = map<string, seq<string>>

  const AUTH := "Authorization"
  const X_AUTH := "X-KubeSphere-Authorization"
  const X_RAWQUERY := "X-KubeSphere-Rawquery"
  const PROXY_PREFIX := "/api/v1/namespaces/kubesphere-system/services/:ks-apiserver:/proxy"
  const DRY_RUN := "dryRun"
  const DISGUISED := "dryrun"

  /** A request on the wire. */
  datatype Message = Message(path: string, rawQuery: string, headers: Headers, upgrade: bool)

  // ----- Headers, as net/http keeps them -----

  function Upper(c: char): char {
    if 'a' <= c <= 'z' then (c as int - 32) as char else c
  }

  function Lower(c: char): char {
    if 'A' <= c <= 'Z' then (c as int + 32) as char else c
  }

  /** Capitals at the start and after each hyphen, small letters elsewhere. */
  function Canonical(name: string): (r: string)
    ensures |r| == |name|
  {
    seq(|name|, i requires 0 <= i < |name| => if i == 0 || name[i - 1] == '-' then Upper(name[i]) else Lower(name[i]))
  }

  function Values(h: Headers, name: string): seq<string> {
    if Canonical(name) in h then h[Canonical(name)] else []
  }

  function Get(h: Headers, name: string): string {
    if Values(h, name) == [] then "" else Values(h, name)[0]
  }

  function Put(h: Headers, name: string, value: string): Headers {
    h[Canonical(name) := [value]]
  }

  function Without(h: Headers, name: string): Headers {
    h - {Canonical(name)}
  }

  // ----- Query keys -----

  /** The part of a query parameter before its first '='. */
  function KeyOf(param: string): string {
    Split(param, '=')[0]
  }

  predicate HasKey(raw: string, key: string) {
    exists i :: 0 <= i < |Split(raw, '&')| && KeyOf(Split(raw, '&')[i]) == key
  }

  // ----- The three stations -----

  function Disguised(raw: string): string {
    if HasKey(raw, DRY_RUN) then ReplaceFirst(raw, DRY_RUN, DISGUISED) else raw
  }

  function Undisguised(raw: string): string {
    if HasKey(raw, DISGUISED) then ReplaceFirst(raw, DISGUISED, DRY_RUN) else raw
  }

  /** What the host cluster sends for a directly connected cluster without its own endpoint. The proxy takes the
      query of an upgrade request from the location it was made for, and of any other from the request. */
  function Sent(m: Message, cluster: string): Message {
    var h := Without(Put(m.headers, X_AUTH, Get(m.headers, AUTH)), AUTH);
    var q := Disguised(m.rawQuery);
    Message(PROXY_PREFIX + StripCluster(m.path, cluster), if m.upgrade then m.rawQuery else q,
            if m.upgrade && q != "" then Put(h, X_RAWQUERY, q) else h, m.upgrade)
  }

  /** The member's kube-apiserver: consumes its own part of the path, drops Authorization,
      and loses the query of an upgrade request. */
  function Hop(m: Message): Message
    requires PROXY_PREFIX <= m.path
  {
    Message(m.path[|PROXY_PREFIX|..], if m.upgrade then "" else m.rawQuery, Without(m.headers, AUTH), m.upgrade)
  }

  /** What the member's ks-apiserver makes of it before resolving. */
  function Restored(m: Message): Message {
    var h := if Get(m.headers, AUTH) == "" && Get(m.headers, X_AUTH) != ""
             then Without(Put(m.headers, AUTH, Get(m.headers, X_AUTH)), X_AUTH) else m.headers;
    var q := Undisguised(m.rawQuery);
    if Get(h, X_RAWQUERY) != "" && q == ""
    then m.(rawQuery := Get(h, X_RAWQUERY), headers := Without(h, X_RAWQUERY))
    else m.(rawQuery := q, headers := h)
  }

  // ----- Round trip of path and headers -----

  lemma HeaderNamesDiffer()
    ensures Canonical(AUTH) != Canonical(X_AUTH)
    ensures Canonical(AUTH) != Canonical(X_RAWQUERY) && Canonical(X_AUTH) != Canonical(X_RAWQUERY)
  {
    assert |AUTH| == 13 && |X_AUTH| == 26 && |X_RAWQUERY| == 21;
  }

  /** The headers alone, for any three different names. */
  lemma HeadersAlone(h: Headers, auth: string, x: string, raw: string, carried: Option<string>, n: string)
    requires Canonical(n) !in {Canonical(auth), Canonical(x), Canonical(raw)}
    requires Canonical(auth) != Canonical(x) && Canonical(auth) != Canonical(raw) && Canonical(x) != Canonical(raw)
    ensures var sent := Without(Put(h, x, Get(h, auth)), auth);
      var there := Without(if carried.Some? then Put(sent, raw, carried.value) else sent, auth);
      && Values(there, n) == Values(h, n) && Values(there, auth) == [] && Get(there, x) == Get(h, auth)
  {}

  lemma HeaderSurvives(m: Message, cluster: string, n: string)
    requires Canonical(n) !in {Canonical(AUTH), Canonical(X_AUTH), Canonical(X_RAWQUERY)}
    ensures var r := Restored(Hop(Sent(m, cluster)));
      && r.path == StripCluster(m.path, cluster)
      && Get(r.headers, AUTH) == Get(m.headers, AUTH) && |Values(r.headers, AUTH)| <= 1
      && Values(r.headers, n) == Values(m.headers, n)
  {
    HeaderNamesDiffer();
    var q := Disguised(m.rawQuery);
    HeadersAlone(m.headers, AUTH, X_AUTH, X_RAWQUERY, if m.upgrade && q != "" then Some(q) else None, n);
  }

  /** The member sees the cluster-free path, the client's Authorization (the first, if there are several) and all
      values of all other headers, however their names are spelled. */
  lemma HeadersSurvive(m: Message, cluster: string)
    ensures var r := Restored(Hop(Sent(m, cluster)));
      && r.path == StripCluster(m.path, cluster)
      && Get(r.headers, AUTH) == Get(m.headers, AUTH) && |Values(r.headers, AUTH)| <= 1
      && forall n :: Canonical(n) !in {Canonical(AUTH), Canonical(X_AUTH), Canonical(X_RAWQUERY)} ==>
           Values(r.headers, n) == Values(m.headers, n)
  {
    HeaderSurvives(m, cluster, "");
    forall n | Canonical(n) !in {Canonical(AUTH), Canonical(X_AUTH), Canonical(X_RAWQUERY)}
      ensures Values(Restored(Hop(Sent(m, cluster))).headers, n) == Values(m.headers, n)
    {
      HeaderSurvives(m, cluster, n);
    }
  }

  /** The kube-apiserver gets no Authorization of ours, and the member's own requests go on without the headers that
      carried things past it. */
  lemma CarriersAreRemoved(m: Message, cluster: string)
    ensures Values(Sent(m, cluster).headers, AUTH) == []
    ensures Get(m.headers, AUTH) != "" ==> Values(Restored(Hop(Sent(m, cluster))).headers, X_AUTH) == []
    ensures m.upgrade && m.rawQuery != "" ==>
      Values(Restored(Hop(Sent(m, cluster))).headers, X_RAWQUERY) == []
  {
    HeaderNamesDiffer();
    DisguiseIsVisible(m.rawQuery);
    EmptyHasNoKey(DISGUISED);
  }

  // ----- Round trip of the query -----

  /** A query parameter key at position `p`, delimited on both sides. */
  predicate KeyAt(q: string, key: string, p: nat) {
    && OccursAt(q, key, p)
    && (p == 0 || q[p - 1] == '&')
    && (p + |key| == |q| || q[p + |key|] in {'&', '='})
  }

  lemma KeyHasPlace(q: string, key: string) returns (p: nat)
    requires HasKey(q, key)
    ensures KeyAt(q, key, p) && Contains(q, key)
  {
    var i :| 0 <= i < |Split(q, '&')| && KeyOf(Split(q, '&')[i]) == key;
    var param := Split(q, '&')[i];
    p := FieldOccurs(q, '&', i);
    var zero := FieldOccurs(param, '=', 0);
    KeyOfFieldAt(q, param, key, p);
    OccursIn(q, key, p);
  }

  lemma KeyOfFieldAt(q: string, param: string, key: string, p: nat)
    requires OccursAt(q, param, p) && (p == 0 || q[p - 1] == '&') && (p + |param| == |q| || q[p + |param|] == '&')
    requires OccursAt(param, key, 0) && (|key| == |param| || param[|key|] == '=')
    ensures KeyAt(q, key, p)
  {
    assert q[p..p + |param|] == param && param[..|key|] == key;
    assert q[p..p + |key|] == q[p..p + |param|][..|key|];
    assert |key| < |param| ==> q[p + |key|] == param[|key|];
  }

  /** Neither spelling overlaps itself or the other: the letter d opens them and does not recur. */
  lemma SpellingsApart(s: string, a: string, i: nat, b: string, j: nat)
    requires a in {DRY_RUN, DISGUISED} && b in {DRY_RUN, DISGUISED}
    requires OccursAt(s, a, i) && OccursAt(s, b, j) && i < j
    ensures i + 6 <= j
  {
    assert s[j] == s[j..j + 6][0] == 'd';
    var word := s[i..i + 6];
    assert word[1] != 'd' && word[2] != 'd' && word[3] != 'd' && word[4] != 'd' && word[5] != 'd';
    assert forall k :: i < k < i + 6 ==> s[k] == word[k - i];
  }

  /** Overwriting six characters at `p`. */
  function Overwrite(s: string, p: nat, word: string): string
    requires p + 6 <= |s|
  {
    s[..p] + word + s[p + 6..]
  }

  lemma OccursElsewhere(s: string, p: nat, word: string, pat: string, i: nat)
    requires p + 6 <= |s| && |word| == 6 && |pat| == 6 && i + 6 <= p
    ensures OccursAt(Overwrite(s, p, word), pat, i) <==> OccursAt(s, pat, i)
  {}

  /** Where the first disguised spelling stands after disguising. */
  lemma DisguisedPosition(q: string)
    requires Contains(q, DRY_RUN)
    ensures var p := Find(q, DRY_RUN);
      var q' := Overwrite(q, p, DISGUISED);
      && q' == ReplaceFirst(q, DRY_RUN, DISGUISED) && |q'| == |q|
      && (p < Find(q, DISGUISED) ==> Find(q', DISGUISED) == p)
      && (Find(q, DISGUISED) < p ==> Find(q', DISGUISED) == Find(q, DISGUISED))
      && Find(q, DISGUISED) != p
  {
    var p, j := Find(q, DRY_RUN), Find(q, DISGUISED);
    var q' := Overwrite(q, p, DISGUISED);
    assert q[p..p + 6] == DRY_RUN && DRY_RUN[3] != DISGUISED[3];
    assert q'[p..p + 6] == DISGUISED;
    forall i | 0 <= i < p && OccursAt(q', DISGUISED, i) ensures OccursAt(q, DISGUISED, i) {
      SpellingsApart(q', DISGUISED, i, DISGUISED, p);
      OccursElsewhere(q, p, DISGUISED, DISGUISED, i);
    }
    if j < p {
      SpellingsApart(q, DISGUISED, j, DRY_RUN, p);
      OccursElsewhere(q, p, DISGUISED, DISGUISED, j);
      FindIs(q', DISGUISED, j);
    } else {
      FindIs(q', DISGUISED, p);
    }
  }

  /** Exactly when a disguised query is restored to itself. With a dryRun parameter, the first dryRun in the text must
      come before any dryrun, and be a parameter key unless dryrun is one too; without, there must be no dryrun parameter. */
  predicate Restorable(q: string) {
    if HasKey(q, DRY_RUN) then
      Find(q, DRY_RUN) < Find(q, DISGUISED) && (KeyAt(q, DRY_RUN, Find(q, DRY_RUN)) || HasKey(q, DISGUISED))
    else !HasKey(q, DISGUISED)
  }

  lemma OverwriteElsewhere(s: string, p: nat, word: string, r: nat)
    requires p + 6 <= |s| && |word| == 6 && r + 6 <= |s| && (r + 6 <= p || p + 6 <= r)
    ensures Overwrite(s, p, word)[r..r + 6] == s[r..r + 6]
    ensures forall i :: 0 <= i < |s| && !(p <= i < p + 6) ==> Overwrite(s, p, word)[i] == s[i]
  {}

  /** Respelling one occurrence neither makes nor unmakes a key elsewhere. */
  lemma KeyElsewhere(q: string, p: nat, word: string, key: string, r: nat)
    requires word in {DRY_RUN, DISGUISED} && key in {DRY_RUN, DISGUISED}
    requires OccursAt(q, DRY_RUN, p) || OccursAt(q, DISGUISED, p)
    requires r != p && KeyAt(q, key, r)
    ensures KeyAt(Overwrite(q, p, word), key, r)
  {
    var spelt := if OccursAt(q, DRY_RUN, p) then DRY_RUN else DISGUISED;
    if r < p {
      SpellingsApart(q, key, r, spelt, p);
      assert q[p] == q[p..p + 6][0] == 'd';
    } else {
      SpellingsApart(q, spelt, p, key, r);
      assert q[p + 5] == q[p..p + 6][5] == 'n';
    }
    OverwriteElsewhere(q, p, word, r);
  }

  /** Putting the spelling back gives the query back, so a key elsewhere was one before. */
  lemma KeyElsewhereBefore(q: string, p: nat, key: string, r: nat)
    requires OccursAt(q, DRY_RUN, p) && key in {DRY_RUN, DISGUISED}
    requires r != p && KeyAt(Overwrite(q, p, DISGUISED), key, r)
    ensures KeyAt(q, key, r)
  {
    var q' := Overwrite(q, p, DISGUISED);
    assert q'[p..p + 6] == DISGUISED;
    KeyElsewhere(q', p, DRY_RUN, key, r);
    assert Overwrite(q', p, DRY_RUN) == q;
  }

  /** A key of the respelled query is the respelled one, or was a key before. */
  lemma KeyBefore(q: string, p: nat, r: nat)
    requires OccursAt(q, DRY_RUN, p) && KeyAt(Overwrite(q, p, DISGUISED), DISGUISED, r)
    ensures if r == p then KeyAt(q, DRY_RUN, p) else KeyAt(q, DISGUISED, r)
  {
    if r != p { KeyElsewhereBefore(q, p, DISGUISED, r); }
  }

  lemma KeyAfter(q: string, p: nat)
    requires OccursAt(q, DRY_RUN, p) && (KeyAt(q, DRY_RUN, p) || HasKey(q, DISGUISED))
    ensures HasKey(Overwrite(q, p, DISGUISED), DISGUISED)
  {
    if KeyAt(q, DRY_RUN, p) {
      DisguisedKeyAt(q, p);
      KeyAtIsKey(Overwrite(q, p, DISGUISED), DISGUISED, p);
    } else {
      var r := KeyHasPlace(q, DISGUISED);
      NotBoth(q, p);
      KeyElsewhere(q, p, DISGUISED, DISGUISED, r);
      KeyAtIsKey(Overwrite(q, p, DISGUISED), DISGUISED, r);
    }
  }

  /** When the respelled query has a disguised key, said of the query itself. */
  lemma RespelledKey(q: string, p: nat)
    requires OccursAt(q, DRY_RUN, p)
    ensures HasKey(Overwrite(q, p, DISGUISED), DISGUISED) <==> KeyAt(q, DRY_RUN, p) || HasKey(q, DISGUISED)
  {
    if HasKey(Overwrite(q, p, DISGUISED), DISGUISED) {
      var r := KeyHasPlace(Overwrite(q, p, DISGUISED), DISGUISED);
      KeyBefore(q, p, r);
      if r != p { KeyAtIsKey(q, DISGUISED, r); }
    }
    if KeyAt(q, DRY_RUN, p) || HasKey(q, DISGUISED) {
      KeyAfter(q, p);
    }
  }

  lemma NotBoth(q: string, p: nat)
    requires OccursAt(q, DRY_RUN, p)
    ensures !OccursAt(q, DISGUISED, p)
  {
    assert DRY_RUN[3] != DISGUISED[3];
  }

  /** Overwriting the first disguised spelling undoes the disguise exactly when it is the one put there. */
  lemma OverwriteBack(q: string, p: nat, at: nat)
    requires OccursAt(q, DRY_RUN, p)
    requires OccursAt(Overwrite(q, p, DISGUISED), DISGUISED, at)
    requires at != p ==> OccursAt(q, DISGUISED, at)
    ensures Overwrite(Overwrite(q, p, DISGUISED), at, DRY_RUN) == q <==> at == p
  {}

  lemma QueryRestored(q: string)
    ensures Undisguised(Disguised(q)) == q <==> Restorable(q)
  {
    if HasKey(q, DRY_RUN) {
      var key := KeyHasPlace(q, DRY_RUN);
      DisguisedPosition(q);
      DisguiseIsVisible(q);
      RespelledKey(q, Find(q, DRY_RUN));
      if HasKey(Disguised(q), DISGUISED) {
        var disguised := KeyHasPlace(Disguised(q), DISGUISED);
        OverwriteBack(q, Find(q, DRY_RUN), Find(Disguised(q), DISGUISED));
      }
    } else if HasKey(q, DISGUISED) {
      var key := KeyHasPlace(q, DISGUISED);
      var at := Find(q, DISGUISED);
      assert DRY_RUN[3] != DISGUISED[3];
      assert Undisguised(q)[at..at + 6] == DRY_RUN && q[at..at + 6] == DISGUISED;
    }
  }

  lemma DisguiseIsVisible(q: string)
    ensures Disguised(q) == q <==> !HasKey(q, DRY_RUN)
    ensures |Disguised(q)| == |q|
  {
    if HasKey(q, DRY_RUN) {
      var key := KeyHasPlace(q, DRY_RUN);
      DisguisedPosition(q);
      var p := Find(q, DRY_RUN);
      assert q[p..p + 6] == DRY_RUN && Disguised(q)[p..p + 6] == DISGUISED;
    }
  }

  /** Proxy round trip: the member sees the client's raw query if and only if
      - an empty query comes without a client-made raw-query header,
      - an upgrade request has no dryRun parameter, whose disguise would not be taken off again,
      - any other request has a restorable query. */
  predicate QuerySurvives(m: Message) {
    if m.rawQuery == "" then Get(m.headers, X_RAWQUERY) == ""
    else if m.upgrade then !HasKey(m.rawQuery, DRY_RUN)
    else Restorable(m.rawQuery)
  }

  lemma EmptyHasNoKey(key: string)
    requires key != ""
    ensures !HasKey("", key)
  {}

  /** The raw-query header as it reaches the member. */
  lemma RawQueryHeader(m: Message, cluster: string)
    ensures Get(Hop(Sent(m, cluster)).headers, X_RAWQUERY)
         == if m.upgrade && Disguised(m.rawQuery) != "" then Disguised(m.rawQuery) else Get(m.headers, X_RAWQUERY)
  {}

  /** What a restored message's query is, given the header. */
  lemma RestoredQuery(m: Message)
    ensures Restored(m).rawQuery
         == if Get(m.headers, X_RAWQUERY) != "" && m.rawQuery == "" then Get(m.headers, X_RAWQUERY) else Undisguised(m.rawQuery)
  {}

  lemma QueryRoundTrip(m: Message, cluster: string)
    ensures Restored(Hop(Sent(m, cluster))).rawQuery == m.rawQuery <==> QuerySurvives(m)
  {
    var q := m.rawQuery;
    EmptyHasNoKey(DRY_RUN);
    EmptyHasNoKey(DISGUISED);
    DisguiseIsVisible(q);
    QueryRestored(q);
    RawQueryHeader(m, cluster);
    RestoredQuery(Hop(Sent(m, cluster)));
  }

  lemma KeyAtIsKey(q: string, key: string, p: nat)
    requires KeyAt(q, key, p) && Free(key, '&') && Free(key, '=')
    ensures HasKey(q, key)
  {
    var rest := q[p..];
    StartsWithKey(rest, key);
    if p > 0 {
      assert q == q[..p - 1] + ['&'] + rest;
      SplitAppend(q[..p - 1], rest, '&');
      var i := |Split(q[..p - 1], '&')|;
      assert Split(q, '&')[i] == Split(rest, '&')[0];
    } else {
      assert rest == q;
    }
  }

  lemma StartsWithKey(q: string, key: string)
    requires key <= q && Free(key, '&') && Free(key, '=')
    requires |q| == |key| || q[|key|] in {'&', '='}
    ensures KeyOf(Split(q, '&')[0]) == key
  {
    var rest := q[|key|..];
    if rest == "" {
      assert q == key;
      SplitFree(q, '&');
      SplitFree(q, '=');
    } else if rest[0] == '&' {
      assert q == key + ['&'] + rest[1..];
      SplitField(key, rest[1..], '&');
      SplitFree(key, '=');
    } else {
      assert q == key + ['='] + rest[1..];
      HeadAppend(key + ['='], rest[1..], '&');
      var tail := Split(rest[1..], '&')[0];
      SplitField(key, tail, '=');
    }
  }

  lemma {:induction false} HeadAppend(a: string, b: string, sep: char)
    requires Free(a, sep)
    ensures Split(a + b, sep)[0] == a + Split(b, sep)[0]
  {
    if a == "" {
      assert a + b == b;
    } else {
      assert (a + b)[1..] == a[1..] + b;
      HeadAppend(a[1..], b, sep);
    }
  }

  /** The case clients meet: no literal "dryrun", and the first "dryRun" is a parameter key. */
  lemma OrdinaryQueryRestorable(q: string)
    requires !Contains(q, DISGUISED)
    requires Contains(q, DRY_RUN) ==> KeyAt(q, DRY_RUN, Find(q, DRY_RUN))
    ensures Restorable(q)
  {
    if HasKey(q, DISGUISED) { var key := KeyHasPlace(q, DISGUISED); }
    if HasKey(q, DRY_RUN) { var key := KeyHasPlace(q, DRY_RUN); }
  }

  lemma DisguisedKeyAt(q: string, p: nat)
    requires KeyAt(q, DRY_RUN, p)
    ensures KeyAt(Overwrite(q, p, DISGUISED), DISGUISED, p)
  {}

  /** A dryRun key at another position than `p`. */
  ghost predicate KeyBeside(q: string, p: nat) {
    exists r: nat :: r != p && KeyAt(q, DRY_RUN, r)
  }

  /** The disguise works exactly when it meets the only dryRun parameter: the kube-apiserver still sees one if and only
      if some dryRun key is not the first dryRun in the text. */
  lemma DryRunHidden(q: string)
    ensures HasKey(Disguised(q), DRY_RUN) <==> KeyBeside(q, Find(q, DRY_RUN))
  {
    var p := Find(q, DRY_RUN);
    if HasKey(q, DRY_RUN) {
      var key := KeyHasPlace(q, DRY_RUN);
      if HasKey(Disguised(q), DRY_RUN) { BesideBefore(q, p); }
      if KeyBeside(q, p) { BesideAfter(q, p); }
    } else if KeyBeside(q, p) {
      var r: nat :| r != p && KeyAt(q, DRY_RUN, r);
      KeyAtIsKey(q, DRY_RUN, r);
    }
  }

  lemma BesideBefore(q: string, p: nat)
    requires OccursAt(q, DRY_RUN, p) && HasKey(Overwrite(q, p, DISGUISED), DRY_RUN)
    ensures KeyBeside(q, p)
  {
    var r := KeyHasPlace(Overwrite(q, p, DISGUISED), DRY_RUN);
    RespelledIsOther(q, p);
    KeyElsewhereBefore(q, p, DRY_RUN, r);
  }

  lemma BesideAfter(q: string, p: nat)
    requires OccursAt(q, DRY_RUN, p) && KeyBeside(q, p)
    ensures HasKey(Overwrite(q, p, DISGUISED), DRY_RUN)
  {
    var r: nat :| r != p && KeyAt(q, DRY_RUN, r);
    KeyElsewhere(q, p, DISGUISED, DRY_RUN, r);
    KeyAtIsKey(Overwrite(q, p, DISGUISED), DRY_RUN, r);
  }

  lemma RespelledIsOther(q: string, p: nat)
    requires OccursAt(q, DRY_RUN, p)
    ensures !OccursAt(Overwrite(q, p, DISGUISED), DRY_RUN, p)
  {
    assert Overwrite(q, p, DISGUISED)[p..p + 6] == DISGUISED && DRY_RUN[3] != DISGUISED[3];
  }

  lemma OrdinaryDryRunSurvives(m: Message, cluster: string)
    requires !m.upgrade && !Contains(m.rawQuery, DISGUISED)
    requires Contains(m.rawQuery, DRY_RUN) ==> KeyAt(m.rawQuery, DRY_RUN, Find(m.rawQuery, DRY_RUN))
    requires Get(m.headers, X_RAWQUERY) == ""
    ensures Restored(Hop(Sent(m, cluster))).rawQuery == m.rawQuery
  {
    OrdinaryQueryRestorable(m.rawQuery);
    QueryRoundTrip(m, cluster);
  }

  /** The conditions bite: an upgrade request asking for a dry run arrives asking for none. */
  lemma UpgradeLosesDryRun(cluster: string)
    ensures var m := Message("/kapis/clusters/c/g/v/r", DRY_RUN, map[], true);
      Restored(Hop(Sent(m, cluster))).rawQuery != m.rawQuery
  {
    SplitFree(DRY_RUN, '&');
    SplitFree(DRY_RUN, '=');
    assert KeyOf(Split(DRY_RUN, '&')[0]) == DRY_RUN;
    QueryRoundTrip(Message("/kapis/clusters/c/g/v/r", DRY_RUN, map[], true), cluster);
  }

  /** End to end: when the query survives, the member resolves the request to what the host resolved,
      but for the cluster and the path, and finds the client's credentials on it. */
  lemma MemberSeesTheRequest(f: Factory, m: Message, verb: string, decode: string -> Query)
    requires "clusters" !in f.apiPrefixes && QuerySurvives(m)
    requires var o := Resolve(f, Request(m.path, verb, decode(m.rawQuery))); !o.Panic? && o.info.cluster != ""
    requires var rest := SplitPath(m.path)[3..]; |rest| >= 2 && rest[0] != "clusters"
    ensures var o := Resolve(f, Request(m.path, verb, decode(m.rawQuery)));
      var r := Restored(Hop(Sent(m, o.info.cluster)));
      && Resolve(f, Request(r.path, verb, decode(r.rawQuery))) == Relabel(o, r.path, "")
      && Get(r.headers, AUTH) == Get(m.headers, AUTH) && r.rawQuery == m.rawQuery
  {
    var req := Request(m.path, verb, decode(m.rawQuery));
    var cluster := Resolve(f, req).info.cluster;
    HeadersSurvive(m, cluster);
    QueryRoundTrip(m, cluster);
    StripPreservesInfo(f, req);
  }

  // ----- The code -----

  class HttpRequest {
    var path: string
    var rawQuery: string
    var headers: Headers
    const upgrade: bool

    constructor (m: Message)
      ensures Wire() == m
    {
      path, rawQuery, headers, upgrade := m.path, m.rawQuery, m.headers, m.upgrade;
    }

    function Wire(): Message
      reads this
    {
      Message(path, rawQuery, headers, upgrade)
    }

    method Set(name: string, value: string)
      modifies this`headers
      ensures headers == Put(old(headers), name, value)
    {
      headers := headers[Canonical(name) := [value]];
    }

    method Del(name: string)
      modifies this`headers
      ensures headers == Without(old(headers), name)
    {
      headers := headers - {Canonical(name)};
    }
  }

  /** What the cluster client knows about the requested cluster. */
  datatype ClusterView = Missing | LookupFailed | Host | NotReady | NoInnerCluster | DirectProxy | OwnEndpoint

  /** Next: the next handler serves the request as it now stands. Proxy: this message goes to the member. */
  datatype Decision = InternalError | BadRequest | Next | Proxy(message: Message)

  method ServeHTTP(req: HttpRequest, info: Option<Info>, cluster: ClusterView) returns (d: Decision)
    modifies req
    ensures info.None? ==> d == InternalError && req.Wire() == old(req.Wire())
    ensures info.Some? && info.value.cluster == "" ==> d == Next && req.Wire() == old(req.Wire())
    ensures info.Some? && info.value.cluster != "" ==>
      match cluster
      case Missing => d == BadRequest && req.Wire() == old(req.Wire())
      case Host => d == Next && req.Wire() == old(req.Wire()).(path := StripCluster(old(req.path), info.value.cluster))
      case DirectProxy =>
        && d == Proxy(Sent(old(req.Wire()), info.value.cluster))
        && req.Wire() == d.message.(path := old(req.path), rawQuery := Disguised(old(req.rawQuery)))
      case OwnEndpoint =>
        d == Proxy(old(req.Wire()).(path := StripCluster(old(req.path), info.value.cluster))) && req.Wire() == old(req.Wire())
      case _ => d == InternalError && req.Wire() == old(req.Wire())
  {
    if info.None? {
      return InternalError;
    }
    if info.value.cluster == "" {
      return Next;
    }
    if cluster == Missing {
      return BadRequest;
    }
    if cluster == LookupFailed {
      return InternalError;
    }
    if cluster == Host {
      req.path := StripCluster(req.path, info.value.cluster);
      return Next;
    }
    if cluster == NotReady || cluster == NoInnerCluster {
      return InternalError;
    }
    var path, query := StripCluster(req.path, info.value.cluster), req.rawQuery;
    if cluster == DirectProxy {
      path := PROXY_PREFIX + path;
      req.Set(X_AUTH, Get(req.headers, AUTH));
      req.Del(AUTH);
      if HasKey(query, DRY_RUN) {
        req.rawQuery := ReplaceFirst(req.rawQuery, DRY_RUN, DISGUISED);
      }
      if req.upgrade && |req.rawQuery| != 0 {
        req.Set(X_RAWQUERY, req.rawQuery);
      }
    }
    return Proxy(Message(path, if req.upgrade then query else req.rawQuery, req.headers, req.upgrade));
  }

  /** Puts the client's Authorization back. */
  method RestoreAuthorization(req: HttpRequest)
    modifies req`headers
    ensures req.headers ==
      if Get(old(req.headers), AUTH) == "" && Get(old(req.headers), X_AUTH) != ""
      then Without(Put(old(req.headers), AUTH, Get(old(req.headers), X_AUTH)), X_AUTH) else old(req.headers)
  {
    var authorization := Get(req.headers, AUTH);
    if |authorization| == 0 {
      var x := Get(req.headers, X_AUTH);
      if |x| != 0 {
        req.Set(AUTH, x);
        req.Del(X_AUTH);
      }
    }
  }

  /** WithRequestInfo up to and including the resolver, which reads the restored query. */
  method RestoreAndResolve(f: Factory, req: HttpRequest, verb: string, decode: string -> Query) returns (o: Outcome)
    modifies req
    ensures req.Wire() == Restored(old(req.Wire()))
    ensures o == Resolve(f, Request(req.path, verb, decode(req.rawQuery)))
  {
    RestoreAuthorization(req);
    if HasKey(req.rawQuery, DISGUISED) {
      req.rawQuery := ReplaceFirst(req.rawQuery, DISGUISED, DRY_RUN);
    }
    var raw := Get(req.headers, X_RAWQUERY);
    if |raw| != 0 && |req.rawQuery| == 0 {
      req.rawQuery := raw;
      req.Del(X_RAWQUERY);
    }
    o := NewRequestInfo(f, Request(req.path, verb, decode(req.rawQuery)));
  }
}
