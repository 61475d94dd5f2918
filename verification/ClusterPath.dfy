/** Taking the cluster out of a path as text agrees with taking it out of the parse. */
module ClusterPath {
  import opened Text
  import opened RequestInfo
  import PathPrinter

  /** strings.Replace(path, "/clusters/" + cluster, "", 1) */
  function StripCluster(path: string, cluster: string): string {
    ReplaceFirst(path, "/clusters/" + cluster, "")
  }

  // ----- Text level -----

  /** The text of a split path around its cluster. */
  lemma PathShape(path: string) returns (l: string, tail: string, r: string)
    requires var parts := SplitPath(path); |parts| >= 3 && parts[1] == "clusters"
    ensures var parts := SplitPath(path);
      && Only(l, '/') && Only(r, '/')
      && path == l + (parts[0] + ("/clusters/" + parts[2] + tail)) + r
      && tail == (if |parts| == 3 then "" else "/" + Join(parts[3..], '/'))
      && parts[0] != "" && Free(parts[0], '/')
      && Bare(parts[0] + ("/clusters/" + parts[2] + tail), '/')
  {
    var parts := SplitPath(path);
    var core := Trim(path, '/');
    l, r := TrimShape(path, '/');
    JoinSplit(core, '/');
    tail := if |parts| == 3 then "" else "/" + Join(parts[3..], '/');
    var after := parts[1..][1..];
    assert after == parts[2..] && after[1..] == parts[3..];
    assert Join(after, '/') == parts[2] + tail;
    assert Join(parts[1..], '/') == "clusters" + "/" + (parts[2] + tail);
    assert core == parts[0] + "/" + ("clusters" + "/" + (parts[2] + tail));
    assert core == parts[0] + ("/clusters/" + parts[2] + tail);
    assert parts[0] in parts;
  }

  /** A slash-free prefix other than the word itself hides no earlier occurrence. */
  lemma NoEarlierOccurrence(l: string, p: string, cluster: string, rest: string, i: nat)
    requires Only(l, '/') && p != "" && Free(p, '/') && p != "clusters"
    requires i < |l| + |p|
    ensures !OccursAt(l + (p + ("/clusters/" + cluster + rest)), "/clusters/" + cluster, i)
  {
    var pat := "/clusters/" + cluster;
    var s := l + (p + (pat + rest));
    assert s == l + (p + ("/clusters/" + cluster + rest));
    OccurrenceStarts(s, pat, i);
    assert i >= |l| ==> s[i] in p;
    assert i < |l| - 1 ==> s[i + 1] == '/';
    if i == |l| - 1 && OccursAt(s, pat, i) {
      assert s[i + 1..] == p + (pat + rest);
      OccurrenceSlice(s, pat, i, 1, 10);
      assert pat[1..10] == "clusters/" && s[i + 1..][..9] == s[i + 1..i + 10];
      WordAfterSlash(p, pat, rest, s[i + 1..]);
    }
  }

  lemma OccurrenceSlice(s: string, pat: string, i: nat, a: nat, b: nat)
    requires OccursAt(s, pat, i) && a <= b <= |pat|
    ensures s[i + a..i + b] == pat[a..b]
  {
    forall k | a <= k < b ensures s[i + k] == pat[k] {
      assert s[i..i + |pat|][k] == s[i + k];
    }
  }

  lemma OccurrenceStarts(s: string, pat: string, i: nat)
    requires |pat| >= 2
    ensures OccursAt(s, pat, i) ==> s[i] == pat[0] && s[i + 1] == pat[1]
  {}

  lemma WordAfterSlash(p: string, pat: string, rest: string, t: string)
    requires p != "" && Free(p, '/') && |pat| >= 10 && pat[..10] == "/clusters/"
    requires t == p + (pat + rest) && t[..9] == "clusters/"
    ensures p == "clusters"
  {
    var after, word := (pat + rest)[1..], "clusters";
    assert word + ['/'] == "clusters/" && Free(word, '/');
    assert t == t[..9] + t[9..] == word + ['/'] + t[9..];
    assert pat[..10][0] == '/' && pat + rest == ['/'] + after;
    assert t == p + ['/'] + after;
    SplitField(word, t[9..], '/');
    SplitField(p, after, '/');
    assert Split(t, '/')[0] == word && Split(t, '/')[0] == p;
  }

  /** Cutting the text "/clusters/{cluster}" once takes exactly the two cluster segments out of the split. */
  lemma StripIsStructural(path: string)
    requires var parts := SplitPath(path);
      |parts| >= 3 && parts[0] != "clusters" && parts[1] == "clusters"
    ensures var parts := SplitPath(path);
      parts[0] != "" && SplitPath(StripCluster(path, parts[2])) == [parts[0]] + parts[3..]
  {
    var parts := SplitPath(path);
    var l, tail, r := PathShape(path);
    var p, pat := parts[0], "/clusters/" + parts[2];
    var at := |l| + |p|;
    assert path == l + (p + (pat + (tail + r)));
    forall i | 0 <= i < at ensures !OccursAt(path, pat, i) {
      NoEarlierOccurrence(l, p, parts[2], tail + r, i);
    }
    assert OccursAt(path, pat, at) by {
      assert path[at..at + |pat|] == pat;
    }
    FindIs(path, pat, at);
    var core := p + tail;
    assert StripCluster(path, parts[2]) == l + core + r by {
      assert path[..at] == l + p && path[at + |pat|..] == tail + r;
    }
    StrippedCore(parts, tail);
    TrimCore(l, core, r, '/');
  }

  lemma StrippedCore(parts: seq<string>, tail: string)
    requires |parts| >= 3 && forall f :: f in parts ==> Free(f, '/')
    requires parts[0] != ""
    requires tail == (if |parts| == 3 then "" else "/" + Join(parts[3..], '/'))
    requires Bare(parts[0] + ("/clusters/" + parts[2] + tail), '/')
    ensures Bare(parts[0] + tail, '/') && Split(parts[0] + tail, '/') == [parts[0]] + parts[3..]
  {
    var p, core := parts[0], parts[0] + tail;
    var whole := p + ("/clusters/" + parts[2] + tail);
    assert p in parts && whole[0] == p[0];
    if |parts| == 3 {
      assert core == p && p[|p| - 1] in p;
      SplitFree(p, '/');
    } else {
      var j := Join(parts[3..], '/');
      assert tail[|tail| - 1] == whole[|whole| - 1];
      assert core == p + ['/'] + j;
      SplitField(p, j, '/');
      assert forall f :: f in parts[3..] ==> f in parts;
      SplitJoin(parts[3..], '/');
    }
  }

  // ----- Parse level -----

  function Relabel(o: Outcome, path: string, cluster: string): Outcome {
    match o
    case Panic => Panic
    case Bad(i) => Bad(i.(path := path, cluster := cluster))
    case Ok(i) => Ok(i.(path := path, cluster := cluster))
  }

  lemma SettleRelabel(info: Info, q: Query, path: string, cluster: string)
    ensures Settle(info.(path := path, cluster := cluster), q) == Settle(info, q).(path := path, cluster := cluster)
  {}

  lemma ScopedRelabel(f: Factory, info: Info, parts: seq<string>, q: Query, path: string, cluster: string)
    ensures ResolveScoped(f, info.(path := path, cluster := cluster), parts, q)
         == Relabel(ResolveScoped(f, info, parts, q), path, cluster)
  {
    var (w, rest) := TakePair(parts, "workspaces");
    var (n, d, tail) := TakeScope(rest);
    var i := WithParts(info.(workspace := w, namespace := n, devops := d), tail);
    SettleRelabel(i.(scope := ScopeOf(f, i)), q, path, cluster);
  }

  lemma VersionedRelabel(f: Factory, info: Info, parts: seq<string>, req: Request, path: string, cluster: string)
    ensures ResolveVersioned(f, info.(path := path, cluster := cluster), parts, req.(path := path))
         == Relabel(ResolveVersioned(f, info, parts, req), path, cluster)
  {
    if |parts| > 0 && parts[0] in SPECIAL_VERBS {
      if |parts| >= 2 { ScopedRelabel(f, info.(verb := parts[0]), parts[1..], req.query, path, cluster); }
    } else {
      ScopedRelabel(f, info.(verb := VerbOf(req.verb)), parts, req.query, path, cluster);
    }
  }

  lemma GroupRelabel(f: Factory, info: Info, parts: seq<string>, req: Request, path: string, cluster: string)
    ensures ResolveGroup(f, info.(path := path, cluster := cluster), parts, req.(path := path))
         == Relabel(ResolveGroup(f, info, parts, req), path, cluster)
  {
    if info.apiPrefix in f.groupless {
      if parts != [] {
        VersionedRelabel(f, info.(isResource := true, apiVersion := parts[0]), parts[1..], req, path, cluster);
      }
    } else if |parts| >= 3 {
      var rest := parts[1..];
      VersionedRelabel(f, info.(apiGroup := parts[0], isResource := true, apiVersion := rest[0]), rest[1..], req, path, cluster);
    }
  }

  /** The path resolves to some cluster: it has the documented shape prefix/clusters/{cluster}. */
  lemma ClusterShape(f: Factory, req: Request)
    requires var o := Resolve(f, req); !o.Panic? && o.info.cluster != ""
    ensures var parts := SplitPath(req.path);
      && |parts| >= 3 && parts[0] in f.apiPrefixes && parts[1] == "clusters"
      && parts[2] == Resolve(f, req).info.cluster
  {
    var parts := SplitPath(req.path);
    if |parts| >= 3 && parts[0] in f.apiPrefixes {
      PathPrinter.ResolvedCluster(f, req);
    }
  }

  /** Cluster stripping preserves meaning: the member cluster resolves the stripped path to the same
      description, but for the cluster and the path itself. The remainder needs two segments, which every
      resource path has, and must not start with another clusters segment. */
  lemma StripPreservesInfo(f: Factory, req: Request)
    requires "clusters" !in f.apiPrefixes
    requires var o := Resolve(f, req); !o.Panic? && o.info.cluster != ""
    requires var rest := SplitPath(req.path)[3..]; |rest| >= 2 && rest[0] != "clusters"
    ensures var path := StripCluster(req.path, Resolve(f, req).info.cluster);
      Resolve(f, req.(path := path)) == Relabel(Resolve(f, req), path, "")
  {
    var parts := SplitPath(req.path);
    ClusterShape(f, req);
    StripIsStructural(req.path);
    var path := StripCluster(req.path, parts[2]);
    var rest := parts[3..];
    assert ([parts[0]] + rest)[1..] == rest && parts[1..][2..] == rest;
    var info := Blank(req).(apiPrefix := parts[0], cluster := parts[2]);
    StrippedParts(f, req, path, parts[0], rest, info);
  }

  lemma StrippedParts(f: Factory, req: Request, path: string, prefix: string, rest: seq<string>, info: Info)
    requires prefix in f.apiPrefixes && |rest| >= 2 && rest[0] != "clusters"
    requires var parts := SplitPath(req.path);
      |parts| == |rest| + 3 && parts[0] == prefix && parts[1] == "clusters" && parts[1..][2..] == rest
    requires info == Blank(req).(apiPrefix := prefix, cluster := SplitPath(req.path)[2])
    requires SplitPath(path) == [prefix] + rest && ([prefix] + rest)[1..] == rest
    requires prefix != ""
    ensures Resolve(f, req.(path := path)) == Relabel(Resolve(f, req), path, "")
  {
    var o := ResolveGroup(f, info, rest, req);
    assert ResolveParts(f, req, SplitPath(req.path)) == o;
    GroupRelabel(f, info, rest, req, path, "");
    assert ResolveParts(f, req.(path := path), [prefix] + rest) == Relabel(o, path, "");
    PathPrinter.GroupKeepsOrigin(f, info, rest, req);
  }

  /** Who handles the request is preserved even where the rest is too short to be a resource path. */
  lemma StripPreservesHandler(f: Factory, req: Request)
    requires "clusters" !in f.apiPrefixes
    requires var o := Resolve(f, req); !o.Panic? && o.info.cluster != ""
    ensures var o := Resolve(f, req.(path := StripCluster(req.path, Resolve(f, req).info.cluster)));
      !o.Panic? ==> o.info.isKubernetes == Resolve(f, req).info.isKubernetes
  {
    var parts := SplitPath(req.path);
    ClusterShape(f, req);
    StripIsStructural(req.path);
    HandledByPrefix(f, req);
    HandledByPrefix(f, req.(path := StripCluster(req.path, parts[2])));
  }

  lemma HandledByPrefix(f: Factory, req: Request)
    requires var parts := SplitPath(req.path); |parts| > 0 && parts[0] in f.apiPrefixes && parts[0] != ""
    ensures var o := Resolve(f, req);
      !o.Panic? ==> (o.info.isKubernetes <==> SplitPath(req.path)[0] in KUBERNETES_PREFIXES)
  {
    var parts := SplitPath(req.path);
    if |parts| >= 3 {
      var (cluster, rest) := TakePair(parts[1..], "clusters");
      PathPrinter.GroupKeepsOrigin(f, Blank(req).(apiPrefix := parts[0], cluster := cluster), rest, req);
    }
  }

  /** With the remainder not starting with clusters, the stripped path never runs out of segments. */
  lemma StrippedNeverPanics(f: Factory, req: Request)
    requires "clusters" !in f.apiPrefixes
    requires var o := Resolve(f, req); !o.Panic? && o.info.cluster != ""
    requires var rest := SplitPath(req.path)[3..]; rest != [] ==> rest[0] != "clusters"
    ensures !Resolve(f, req.(path := StripCluster(req.path, Resolve(f, req).info.cluster))).Panic?
  {
    ClusterShape(f, req);
    StripIsStructural(req.path);
    PanicsExactly(f, req.(path := StripCluster(req.path, Resolve(f, req).info.cluster)));
  }
}
