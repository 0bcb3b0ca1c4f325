/**
 Following a program's path one component at a time, through symbolic links, so
 that only root can have decided where it ends
 (apps/backend/paw_backend/runtime_config.py, `_Parser._resolve`).

 A link-free absolute path is the sequence of its components; `[]` is "/".
 */
module TrustedPath {
  import opened Options

  const MAX_LINK_HOPS: nat := 8

  type Path = seq<string>

  /** `writable`: by the group or others. A link without a target cannot be read. */
  datatype Node =
    | Directory(owner: nat, writable: bool, sticky: bool)
    | File(owner: nat, writable: bool, content: nat)
    | Link(target: Option<string>)
    | Special

  /** What `lstat` and `readlink` answer. The walk asks only about entries of
      directories it has already found to be directories and not links. */
  type Host = map<Path, Node>

  datatype Problem = Missing | NotRegular | NotRoots | Writable | Sticky | TooManyLinks | Unreadable

  datatype Resolved = Resolved(path: Path, names: seq<string>)

  /** Python's `split("/")`. */
  function Split(s: string): seq<string>
    ensures |Split(s)| >= 1
  {
    if s == "" then [""]
    else if s[0] == '/' then [""] + Split(s[1..])
    else var r := Split(s[1..]); [[s[0]] + r[0]] + r[1..]
  }

  /** The text with these components. */
  function Joined(parts: seq<string>): string
    requires |parts| >= 1
  {
    if |parts| == 1 then parts[0] else parts[0] + "/" + Joined(parts[1..])
  }

  /** The components of a text hold no slash, and joined with slashes they are the text. */
  lemma {:induction false} SplitIsExact(s: string)
    ensures Joined(Split(s)) == s
    ensures forall i :: 0 <= i < |Split(s)| ==> '/' !in Split(s)[i]
  {
    if s != "" {
      var r := Split(s[1..]);
      SplitIsExact(s[1..]);
      assert s == [s[0]] + s[1..];
      if s[0] == '/' {
        assert ([""] + r)[1..] == r && "" + "/" + Joined(r) == "/" + Joined(r);
      } else {
        var q := [[s[0]] + r[0]] + r[1..];
        assert q[1..] == r[1..];
        if |r| == 1 {
          assert Joined(q) == [s[0]] + r[0];
        } else {
          assert Joined(q) == [s[0]] + (r[0] + "/" + Joined(r[1..]));
        }
      }
    }
  }

  predicate Skipped(part: string) {
    part == "" || part == "."
  }

  /** `last`: nothing but empty and "." components follows. */
  predicate Trails(rest: seq<string>) {
    forall i :: 0 <= i < |rest| ==> Skipped(rest[i])
  }

  function Parent(p: Path): Path {
    if p == [] then [] else p[..|p| - 1]
  }

  predicate Readable(target: Option<string>) {
    target.Some? && target.value != "" && '\0' !in target.value
  }

  function LinkBase(cur: Path, target: string): Path {
    if target != "" && target[0] == '/' then [] else cur
  }

  // ----- the code -----

  /** `_directory`. */
  function DirectoryProblem(host: Host, root: nat, p: Path): Option<Problem> {
    if p !in host || !host[p].Directory? then Some(Missing)
    else if host[p].owner != root then Some(NotRoots)
    else if host[p].writable then Some(Writable)
    else if host[p].sticky then Some(Sticky)
    else None
  }

  function FileProblem(host: Host, root: nat, p: Path): Option<Problem> {
    if p !in host || !host[p].File? then Some(NotRegular)
    else if host[p].owner != root then Some(NotRoots)
    else if host[p].writable then Some(Writable)
    else None
  }

  /** The loop of `_resolve` from some point on. */
  function Walk(host: Host, root: nat, cur: Path, pending: seq<string>, hops: nat, names: seq<string>)
    : Result<Resolved, Problem>
    requires hops <= MAX_LINK_HOPS
    decreases MAX_LINK_HOPS - hops, |pending|
  {
    if pending == [] then Err(NotRegular)
    else
      var part, rest := pending[0], pending[1..];
      if Skipped(part) then Walk(host, root, cur, rest, hops, names)
      else if part == ".." then Walk(host, root, Parent(cur), rest, hops, names)
      else
        var candidate := cur + [part];
        if candidate !in host then Err(Missing)
        else if host[candidate].Link? then
          var target := host[candidate].target;
          if hops + 1 > MAX_LINK_HOPS then Err(TooManyLinks)
          else if !Readable(target) then Err(Unreadable)
          else Walk(host, root, LinkBase(cur, target.value), Split(target.value) + rest, hops + 1,
                    if Trails(rest) then names + [part] else names)
        else if !Trails(rest) then
          match DirectoryProblem(host, root, candidate)
          case Some(e) => Err(e)
          case None => Walk(host, root, candidate, rest, hops, names)
        else
          match FileProblem(host, root, candidate)
          case Some(e) => Err(e)
          case None => Ok(Resolved(candidate, names + [part]))
  }

  function Resolve(host: Host, root: nat, path: string): Result<Resolved, Problem> {
    match DirectoryProblem(host, root, [])
    case Some(e) => Err(e)
    case None => Walk(host, root, [], Split(path)[1..], 0, [])
  }

  /** `_resolve` itself. It ends on every host: each turn follows a link within
      the limit or has one component fewer to go. */
  method ResolvePath(host: Host, root: nat, path: string) returns (r: Result<Resolved, Problem>)
    ensures r == Resolve(host, root, path)
  {
    var problem := DirectoryProblem(host, root, []);
    if problem.Some? {
      return Err(problem.value);
    }
    var pending := Split(path)[1..];
    var current: Path := [];
    var hops: nat := 0;
    var names: seq<string> := [];
    while pending != []
      invariant hops <= MAX_LINK_HOPS
      invariant Walk(host, root, current, pending, hops, names) == Resolve(host, root, path)
      decreases MAX_LINK_HOPS - hops, |pending|
    {
      var part := pending[0];
      pending := pending[1..];
      if Skipped(part) {
        continue;
      }
      if part == ".." {
        current := Parent(current);
        continue;
      }
      var candidate := current + [part];
      var last := Trails(pending);
      if candidate !in host {
        return Err(Missing);
      }
      if host[candidate].Link? {
        if last {
          names := names + [part];
        }
        if hops + 1 > MAX_LINK_HOPS {
          return Err(TooManyLinks);
        }
        hops := hops + 1;
        var target := host[candidate].target;
        if !Readable(target) {
          return Err(Unreadable);
        }
        if target.value[0] == '/' {
          current := [];
        }
        pending := Split(target.value) + pending;
        continue;
      }
      if !last {
        current := candidate;
        problem := DirectoryProblem(host, root, current);
        if problem.Some? {
          return Err(problem.value);
        }
        continue;
      }
      problem := FileProblem(host, root, candidate);
      return if problem.Some? then Err(problem.value) else Ok(Resolved(candidate, names + [part]));
    }
    return Err(NotRegular);
  }

  // ----- the reference: pathname resolution -----

  /** Where a pathname leads, and every directory the resolution stood in. */
  datatype Arrival = Arrival(at: Path, through: set<Path>)

  /** Section 4.13 of the Base Definitions of POSIX.1-2017, from directory `cur`,
      with at most `budget` links. A `strict` resolution fails where a trailing
      slash or "." follows something that is not a directory. */
  function Pathname(host: Host, cur: Path, parts: seq<string>, budget: nat, strict: bool): Option<Arrival>
    decreases budget, |parts|
  {
    if parts == [] then
      Some(Arrival(cur, {cur}))
    else
      var part, rest := parts[0], parts[1..];
      if part == "" || part == "." then Pathname(host, cur, rest, budget, strict)
      // the parent of the root is the root
      else if part == ".." then
        Via(cur, Pathname(host, if cur == [] then [] else cur[..|cur| - 1], rest, budget, strict))
      else if cur + [part] !in host then None
      else match host[cur + [part]]
        case Directory(_, _, _) => Via(cur, Pathname(host, cur + [part], rest, budget, strict))
        case Link(target) =>
          if budget == 0 || target.None? || target.value == "" || '\0' in target.value then None
          // a target that begins with a slash starts at the root, any other in the
          // directory that holds the link
          else
            var base := if target.value[0] == '/' then [] else cur;
            Via(cur, Pathname(host, base, Split(target.value) + rest, budget - 1, strict))
        case _ =>
          if rest == [] || (!strict && forall i :: 0 <= i < |rest| ==> rest[i] == "" || rest[i] == ".")
          then Some(Arrival(cur + [part], {cur})) else None
  }

  function Via(cur: Path, a: Option<Arrival>): Option<Arrival> {
    if a.None? then None else Some(Arrival(a.value.at, a.value.through + {cur}))
  }

  datatype Hop = Hop(name: string, target: string)

  /** The links that the resolution follows in the last place, where nothing but empty
      and "." components is left. */
  function LastHops(host: Host, cur: Path, parts: seq<string>, budget: nat): seq<Hop>
    decreases budget, |parts|
  {
    if parts == [] then []
    else
      var part, rest := parts[0], parts[1..];
      if Skipped(part) then LastHops(host, cur, rest, budget)
      else if part == ".." then LastHops(host, Parent(cur), rest, budget)
      else if cur + [part] !in host then []
      else match host[cur + [part]]
        case Directory(_, _, _) => LastHops(host, cur + [part], rest, budget)
        case Link(target) =>
          if budget == 0 || !Readable(target) then []
          else
            (if Trails(rest) then [Hop(part, target.value)] else [])
            + LastHops(host, LinkBase(cur, target.value), Split(target.value) + rest, budget - 1)
        case _ => []
  }

  lemma HopsOfLink(host: Host, cur: Path, parts: seq<string>, budget: nat, target: string, base: Path, more: seq<string>)
    requires parts != [] && !Skipped(parts[0]) && parts[0] != ".." && budget > 0
    requires cur + [parts[0]] in host && host[cur + [parts[0]]] == Link(Some(target)) && Readable(Some(target))
    requires base == LinkBase(cur, target) && more == Split(target) + parts[1..]
    ensures LastHops(host, cur, parts, budget)
            == (if Trails(parts[1..]) then [Hop(parts[0], target)] else []) + LastHops(host, base, more, budget - 1)
  {
  }

  function NamesOf(hops: seq<Hop>): seq<string> {
    if hops == [] then [] else [hops[0].name] + NamesOf(hops[1..])
  }

  /** A link is followed from the directory that holds it, or from the root if its target
      begins with a slash. */
  lemma LinkIsFollowed(host: Host, root: nat, dir: Path, name: string, target: string, rest: seq<string>)
    requires name !in {"", ".", ".."} && dir + [name] in host && host[dir + [name]] == Link(Some(target))
    requires target != "" && '\0' !in target
    ensures Walk(host, root, dir, [name] + rest, 0, [])
            == Walk(host, root, if target[0] == '/' then [] else dir, Split(target) + rest, 1,
                    if Trails(rest) then [name] else [])
  {
    assert ([name] + rest)[1..] == rest && [] + [name] == [name];
  }

  // ----- what a resolved path guarantees -----

  /** A directory that is root's, that the group and others cannot write to, and that
      is not sticky. */
  predicate Trusted(host: Host, root: nat, p: Path) {
    p in host && host[p].Directory? && host[p].owner == root && !host[p].writable && !host[p].sticky
  }

  /** A regular file that is root's and that the group and others cannot write to. */
  predicate TrustedFile(host: Host, root: nat, p: Path) {
    p in host && host[p].File? && host[p].owner == root && !host[p].writable
  }

  predicate AllTrusted(host: Host, root: nat, p: Path) {
    forall i :: 0 <= i <= |p| ==> Trusted(host, root, p[..i])
  }

  lemma TrustedStep(host: Host, root: nat, cur: Path, part: string)
    requires AllTrusted(host, root, cur)
    ensures AllTrusted(host, root, Parent(cur)) && AllTrusted(host, root, []) && Trusted(host, root, cur)
    ensures Trusted(host, root, cur + [part]) ==> AllTrusted(host, root, cur + [part])
  {
    assert cur[..|cur|] == cur && cur[..0] == [];
    if cur != [] {
      forall i | 0 <= i <= |cur| - 1 ensures Parent(cur)[..i] == cur[..i] {}
    }
    forall i | 0 <= i <= |cur| ensures (cur + [part])[..i] == cur[..i] {}
    assert (cur + [part])[..|cur| + 1] == cur + [part];
  }

  ghost predicate Reaches(host: Host, root: nat, a: Option<Arrival>, p: Path) {
    && a.Some? && a.value.at == p
    && forall d :: d in a.value.through ==> Trusted(host, root, d)
  }

  lemma {:induction false} WalkIsSound(host: Host, root: nat, cur: Path, pending: seq<string>, hops: nat, names: seq<string>)
    requires hops <= MAX_LINK_HOPS && AllTrusted(host, root, cur)
    ensures var r := Walk(host, root, cur, pending, hops, names);
            r.Ok? ==>
              && Reaches(host, root, Pathname(host, cur, pending, MAX_LINK_HOPS - hops, false), r.value.path)
              && TrustedFile(host, root, r.value.path)
              && r.value.path != []
    decreases MAX_LINK_HOPS - hops, |pending|
  {
    if pending != [] {
      var part, rest := pending[0], pending[1..];
      TrustedStep(host, root, cur, part);
      var candidate := cur + [part];
      if Skipped(part) {
        WalkIsSound(host, root, cur, rest, hops, names);
      } else if part == ".." {
        WalkIsSound(host, root, Parent(cur), rest, hops, names);
      } else if candidate in host && host[candidate].Link? {
        var target := host[candidate].target;
        if hops < MAX_LINK_HOPS && Readable(target) {
          WalkIsSound(host, root, LinkBase(cur, target.value), Split(target.value) + rest, hops + 1,
                      if Trails(rest) then names + [part] else names);
        }
      } else if candidate in host && !Trails(rest) && Trusted(host, root, candidate) {
        WalkIsSound(host, root, candidate, rest, hops, names);
      }
    }
  }

  /** The names returned are those met before, the name of every link followed in the
      last place, in order, and the name of the file. */
  lemma {:induction false} WalkNames(host: Host, root: nat, cur: Path, pending: seq<string>, hops: nat, names: seq<string>)
    requires hops <= MAX_LINK_HOPS
    ensures var r := Walk(host, root, cur, pending, hops, names);
            r.Ok? ==>
              && r.value.path != []
              && r.value.names == names + NamesOf(LastHops(host, cur, pending, MAX_LINK_HOPS - hops))
                                  + [r.value.path[|r.value.path| - 1]]
    decreases MAX_LINK_HOPS - hops, |pending|
  {
    if pending != [] {
      var part, rest := pending[0], pending[1..];
      var candidate := cur + [part];
      if Skipped(part) {
        WalkNames(host, root, cur, rest, hops, names);
      } else if part == ".." {
        WalkNames(host, root, Parent(cur), rest, hops, names);
      } else if candidate in host && host[candidate].Link? {
        var target := host[candidate].target;
        if hops < MAX_LINK_HOPS && Readable(target) {
          var base, next := LinkBase(cur, target.value), Split(target.value) + rest;
          var sub := LastHops(host, base, next, MAX_LINK_HOPS - hops - 1);
          WalkNames(host, root, base, next, hops + 1, if Trails(rest) then names + [part] else names);
          NameFirst(names, Trails(rest), Hop(part, target.value), sub);
          HopsOfLink(host, cur, pending, MAX_LINK_HOPS - hops, target.value, base, next);
        }
      } else if candidate in host && !Trails(rest) && Trusted(host, root, candidate) {
        WalkNames(host, root, candidate, rest, hops, names);
      } else {
        assert names + [] == names;
      }
    }
  }

  lemma NameFirst(names: seq<string>, first: bool, hop: Hop, hops: seq<Hop>)
    ensures names + NamesOf((if first then [hop] else []) + hops)
            == (if first then names + [hop.name] else names) + NamesOf(hops)
  {
    assert ([hop] + hops)[1..] == hops && [] + hops == hops;
  }

  lemma {:induction false} WalkIsComplete(
      host: Host, root: nat, cur: Path, pending: seq<string>, hops: nat, names: seq<string>, p: Path)
    requires hops <= MAX_LINK_HOPS && AllTrusted(host, root, cur)
    requires Reaches(host, root, Pathname(host, cur, pending, MAX_LINK_HOPS - hops, false), p)
    requires TrustedFile(host, root, p)
    ensures var r := Walk(host, root, cur, pending, hops, names); r.Ok? && r.value.path == p
    decreases MAX_LINK_HOPS - hops, |pending|
  {
    TrustedStep(host, root, cur, "");
    if pending != [] {
      var part, rest := pending[0], pending[1..];
      TrustedStep(host, root, cur, part);
      var candidate := cur + [part];
      if Skipped(part) {
        WalkIsComplete(host, root, cur, rest, hops, names, p);
      } else if part == ".." {
        WalkIsComplete(host, root, Parent(cur), rest, hops, names, p);
      } else if host[candidate].Link? {
        var target := host[candidate].target;
        WalkIsComplete(host, root, LinkBase(cur, target.value), Split(target.value) + rest, hops + 1,
                       if Trails(rest) then names + [part] else names, p);
      } else if host[candidate].Directory? {
        StandsIn(host, candidate, rest, MAX_LINK_HOPS - hops);
        if Trails(rest) {
          TrailsStays(host, candidate, rest, MAX_LINK_HOPS - hops);
        } else {
          WalkIsComplete(host, root, candidate, rest, hops, names, p);
        }
      }
    }
  }

  lemma {:induction false} StandsIn(host: Host, cur: Path, parts: seq<string>, budget: nat)
    ensures var a := Pathname(host, cur, parts, budget, false); a.Some? ==> cur in a.value.through
    decreases |parts|
  {
    if parts != [] && Skipped(parts[0]) { StandsIn(host, cur, parts[1..], budget); }
  }

  lemma {:induction false} TrailsStays(host: Host, cur: Path, parts: seq<string>, budget: nat)
    requires Trails(parts)
    ensures Pathname(host, cur, parts, budget, false) == Some(Arrival(cur, {cur}))
    decreases |parts|
  {
    if parts != [] { TrailsStays(host, cur, parts[1..], budget); }
  }

  /** `_resolve` returns a file exactly when pathname resolution (forgiving about
      a trailing slash) reaches it within eight links, it is root's alone, and
      every directory on the way is root's alone and not sticky. */
  lemma ResolveIff(host: Host, root: nat, path: string, p: Path)
    requires Trusted(host, root, [])
    ensures (exists names :: Resolve(host, root, path) == Ok(Resolved(p, names))) <==>
            && Reaches(host, root, Pathname(host, [], Split(path)[1..], MAX_LINK_HOPS, false), p)
            && TrustedFile(host, root, p)
  {
    var parts := Split(path)[1..];
    assert AllTrusted(host, root, []);
    WalkIsSound(host, root, [], parts, 0, []);
    if Reaches(host, root, Pathname(host, [], parts, MAX_LINK_HOPS, false), p) && TrustedFile(host, root, p) {
      WalkIsComplete(host, root, [], parts, 0, [], p);
      var r := Resolve(host, root, path).value;
      assert Resolve(host, root, path) == Ok(Resolved(p, r.names));
    }
  }

  lemma {:induction false} StrictAgrees(host: Host, cur: Path, parts: seq<string>, budget: nat, more: nat)
    requires Pathname(host, cur, parts, budget, false).Some?
    ensures var s := Pathname(host, cur, parts, budget + more, true);
            s == None || s == Pathname(host, cur, parts, budget, false)
    decreases budget, |parts|
  {
    if parts != [] {
      var part, rest := parts[0], parts[1..];
      if Skipped(part) {
        StrictAgrees(host, cur, rest, budget, more);
      } else if part == ".." {
        StrictAgrees(host, Parent(cur), rest, budget, more);
      } else if host[cur + [part]].Directory? {
        StrictAgrees(host, cur + [part], rest, budget, more);
      } else if host[cur + [part]].Link? {
        var target := host[cur + [part]].target.value;
        StrictAgrees(host, LinkBase(cur, target), Split(target) + rest, budget - 1, more);
      }
    }
  }

  /** Whenever the system's own resolution of the path succeeds (whatever its
      limit on links beyond eight), it ends at the file `_resolve` returned, and
      every directory it went through is root's alone. */
  lemma ResolvedIsWhatRuns(host: Host, root: nat, path: string, limit: nat)
    requires Resolve(host, root, path).Ok? && limit >= MAX_LINK_HOPS
    ensures var run := Pathname(host, [], Split(path)[1..], limit, true);
            run.Some? ==> Reaches(host, root, run, Resolve(host, root, path).value.path)
  {
    assert AllTrusted(host, root, []);
    WalkIsSound(host, root, [], Split(path)[1..], 0, []);
    StrictAgrees(host, [], Split(path)[1..], MAX_LINK_HOPS, limit - MAX_LINK_HOPS);
  }

  // ----- when the system refuses what is resolved -----

  /** Nothing empty and no "." at the end. */
  predicate EndsPlainly(parts: seq<string>) {
    parts != [] && !Skipped(parts[|parts| - 1])
  }

  ghost predicate AllEndPlainly(hops: seq<Hop>) {
    forall i :: 0 <= i < |hops| ==> EndsPlainly(Split(hops[i].target))
  }

  lemma EndsAfter(first: seq<string>, rest: seq<string>)
    requires rest != []
    ensures EndsPlainly(first + rest) == EndsPlainly(rest)
    ensures Trails(rest) ==> !EndsPlainly(rest)
  {
  }

  lemma AllWithFirst(hop: Hop, hops: seq<Hop>)
    ensures AllEndPlainly([hop] + hops) <==> EndsPlainly(Split(hop.target)) && AllEndPlainly(hops)
  {
    var all := [hop] + hops;
    assert all[0] == hop && forall i :: 0 <= i < |hops| ==> all[i + 1] == hops[i];
  }

  /** A file that the forgiving resolution reaches is reached by the strict one, under
      any limit that is not lower, if and only if neither the path nor the target of a
      link followed in the last place ends in a slash or in ".". */
  lemma {:induction false} StrictIff(
      host: Host, root: nat, cur: Path, parts: seq<string>, budget: nat, more: nat, p: Path)
    requires Reaches(host, root, Pathname(host, cur, parts, budget, false), p) && p in host && host[p].File?
    ensures Pathname(host, cur, parts, budget + more, true).Some? <==>
            EndsPlainly(parts) && AllEndPlainly(LastHops(host, cur, parts, budget))
    decreases budget, |parts|
  {
    if parts != [] {
      var part, rest := parts[0], parts[1..];
      assert parts == [part] + rest;
      if rest != [] { EndsAfter([part], rest); }
      if Skipped(part) {
        StrictIff(host, root, cur, rest, budget, more, p);
      } else if part == ".." {
        StrictIff(host, root, Parent(cur), rest, budget, more, p);
      } else if host[cur + [part]].Directory? {
        StrictIff(host, root, cur + [part], rest, budget, more, p);
      } else if host[cur + [part]].Link? {
        var target := host[cur + [part]].target.value;
        var base, next := LinkBase(cur, target), Split(target) + rest;
        StrictIff(host, root, base, next, budget - 1, more, p);
        if rest != [] { EndsAfter(Split(target), rest); } else { assert next == Split(target); }
        var sub := LastHops(host, base, next, budget - 1);
        AllWithFirst(Hop(part, target), sub);
        assert [] + sub == sub;
      }
    }
  }

  /** What `_resolve` returns, the system's own resolution reaches if and only if
      neither the path nor a link followed in the last place ends in a slash or ".". */
  lemma RunsIff(host: Host, root: nat, path: string, limit: nat)
    requires Resolve(host, root, path).Ok? && limit >= MAX_LINK_HOPS
    ensures var parts := Split(path)[1..];
            Reaches(host, root, Pathname(host, [], parts, limit, true), Resolve(host, root, path).value.path) <==>
            EndsPlainly(parts) && AllEndPlainly(LastHops(host, [], parts, MAX_LINK_HOPS))
  {
    var parts, p := Split(path)[1..], Resolve(host, root, path).value.path;
    assert AllTrusted(host, root, []);
    WalkIsSound(host, root, [], parts, 0, []);
    StrictIff(host, root, [], parts, MAX_LINK_HOPS, limit - MAX_LINK_HOPS, p);
    ResolvedIsWhatRuns(host, root, path, limit);
  }

  /** Every link on the host has a target that does not end in a slash or ".". */
  ghost predicate PlainLinks(host: Host) {
    forall p :: p in host && host[p].Link? && Readable(host[p].target) ==> EndsPlainly(Split(host[p].target.value))
  }

  lemma JoinEndsPlainly(first: bool, hop: Hop, hops: seq<Hop>)
    requires EndsPlainly(Split(hop.target)) && AllEndPlainly(hops)
    ensures AllEndPlainly((if first then [hop] else []) + hops)
  {
    AllWithFirst(hop, hops);
    assert [] + hops == hops;
  }

  lemma {:induction false} LastHopsAreLinks(host: Host, cur: Path, parts: seq<string>, budget: nat)
    requires PlainLinks(host)
    ensures AllEndPlainly(LastHops(host, cur, parts, budget))
    decreases budget, |parts|
  {
    if parts != [] {
      var part, rest := parts[0], parts[1..];
      var next := cur + [part];
      if Skipped(part) {
        LastHopsAreLinks(host, cur, rest, budget);
      } else if part == ".." {
        LastHopsAreLinks(host, Parent(cur), rest, budget);
      } else if next in host && host[next].Directory? {
        LastHopsAreLinks(host, next, rest, budget);
      } else if next in host && host[next].Link? && budget > 0 && Readable(host[next].target) {
        var target := host[next].target.value;
        var base, more := LinkBase(cur, target), Split(target) + rest;
        LastHopsAreLinks(host, base, more, budget - 1);
        HopsOfLink(host, cur, parts, budget, target, base, more);
        JoinEndsPlainly(Trails(rest), Hop(part, target), LastHops(host, base, more, budget - 1));
      }
    }
  }

  /** So on a host without such links a path without one is resolved as the system
      resolves it, whenever it is resolved. */
  lemma PlainPathsRun(host: Host, root: nat, path: string, limit: nat)
    requires Resolve(host, root, path).Ok? && limit >= MAX_LINK_HOPS
    requires PlainLinks(host) && EndsPlainly(Split(path)[1..])
    ensures Reaches(host, root, Pathname(host, [], Split(path)[1..], limit, true), Resolve(host, root, path).value.path)
  {
    LastHopsAreLinks(host, [], Split(path)[1..], MAX_LINK_HOPS);
    RunsIff(host, root, path, limit);
  }

  /** The launcher check's names: those of the links followed in the last place and of
      the file. */
  lemma ResolvedNames(host: Host, root: nat, path: string)
    requires Resolve(host, root, path).Ok?
    ensures var r := Resolve(host, root, path).value;
            r.path != []
            && r.names == NamesOf(LastHops(host, [], Split(path)[1..], MAX_LINK_HOPS)) + [r.path[|r.path| - 1]]
  {
    WalkNames(host, root, [], Split(path)[1..], 0, []);
    var names := NamesOf(LastHops(host, [], Split(path)[1..], MAX_LINK_HOPS));
    assert [] + names == names;
  }

  lemma SplitExamples()
    ensures Split("f/") == ["f", ""] && Split("/l") == ["", "l"]
  {
    assert "f/"[1..] == "/" && "/"[1..] == "" && "/l"[1..] == "l" && "l"[1..] == "";
    assert Split("") == [""];
    assert Split("/") == ["", ""];
    assert ['f'] + "" == "f" && ['l'] + "" == "l";
    assert Split("l") == ["l"];
    assert Split("f/") == ["f"] + [""];
  }

  /** The two do differ: a link to "f/" is followed to the file f, where the
      system's resolution stops with "not a directory". */
  lemma TrailingSlashIsForgiven(host: Host, root: nat)
    requires Trusted(host, root, []) && TrustedFile(host, root, ["f"])
    requires ["l"] in host && host[["l"]] == Link(Some("f/"))
    ensures Resolve(host, root, "/l") == Ok(Resolved(["f"], ["l", "f"]))
    ensures Pathname(host, [], Split("/l")[1..], MAX_LINK_HOPS, true) == None
  {
    SplitExamples();
    var target := "f/";
    assert ["", "l"][1..] == ["l"] && ["l"][1..] == [] && Split(target) + [] == ["f", ""] && ["f", ""][1..] == [""];
    assert [] + ["l"] == ["l"] && [] + ["f"] == ["f"] && ["l"] + ["f"] == ["l", "f"];
    FileThenSlash(host, root);
    assert Readable(Some(target)) && LinkBase([], target) == [];
    assert Walk(host, root, [], ["l"], 0, []) == Walk(host, root, [], ["f", ""], 1, ["l"]);
  }

  lemma FileThenSlash(host: Host, root: nat)
    requires TrustedFile(host, root, ["f"])
    ensures Walk(host, root, [], ["f", ""], 1, ["l"]) == Ok(Resolved(["f"], ["l", "f"]))
    ensures Pathname(host, [], ["f", ""], 7, true) == None
  {
    assert ["f", ""][1..] == [""] && [] + ["f"] == ["f"] && ["l"] + ["f"] == ["l", "f"];
    assert Trails([""]);
  }

  // ----- nobody but root decides -----

  /** Only root can add, remove, rename or replace the entries of this directory: it is
      root's and nobody else may write to it. */
  predicate Guarded(host: Host, root: nat, p: Path) {
    p in host && host[p].Directory? && host[p].owner == root && !host[p].writable
  }

  predicate AllGuarded(host: Host, root: nat, p: Path) {
    forall i :: 0 <= i <= |p| ==> Guarded(host, root, p[..i])
  }

  /** `other` is `host` after anything others than root may have done, by the rules of
      owners and write permission alone. Where every directory down to an entry is
      guarded, the entry is still there and the same, except that the mode and the
      content of one that is not root's, and the content of a file that others may write
      to, may differ. Everything else may be anything. */
  ghost predicate SameForRoot(host: Host, other: Host, root: nat) {
    && Same(host, other, root, [])
    && forall dir: Path, part: string :: AllGuarded(host, root, dir) ==> Same(host, other, root, dir + [part])
  }

  predicate Same(host: Host, other: Host, root: nat, p: Path) {
    (p in host <==> p in other) && (p in host ==> SameNode(host[p], other[p], root))
  }

  predicate SameNode(a: Node, b: Node, root: nat) {
    || a == b
    || (a.Directory? && b.Directory? && a.owner == b.owner != root)
    || (a.File? && b.File? && a.owner == b.owner != root)
    || (a.File? && b.File? && a.writable && b == a.(content := b.content))
  }

  lemma TrustedIsGuarded(host: Host, root: nat, p: Path)
    requires AllTrusted(host, root, p)
    ensures AllGuarded(host, root, p)
  {
    forall i | 0 <= i <= |p| ensures Guarded(host, root, p[..i]) { assert Trusted(host, root, p[..i]); }
  }

  lemma {:induction false} WalkIsStable(
      host: Host, other: Host, root: nat, cur: Path, pending: seq<string>, hops: nat, names: seq<string>)
    requires SameForRoot(host, other, root)
    requires hops <= MAX_LINK_HOPS && AllTrusted(host, root, cur)
    ensures Walk(other, root, cur, pending, hops, names) == Walk(host, root, cur, pending, hops, names)
    decreases MAX_LINK_HOPS - hops, |pending|
  {
    if pending != [] {
      var part, rest := pending[0], pending[1..];
      TrustedStep(host, root, cur, part);
      var candidate := cur + [part];
      TrustedIsGuarded(host, root, cur);
      assert Same(host, other, root, candidate);
      if Skipped(part) {
        WalkIsStable(host, other, root, cur, rest, hops, names);
      } else if part == ".." {
        WalkIsStable(host, other, root, Parent(cur), rest, hops, names);
      } else if candidate in host && host[candidate].Link? {
        var target := host[candidate].target;
        if hops < MAX_LINK_HOPS && Readable(target) {
          WalkIsStable(host, other, root, LinkBase(cur, target.value), Split(target.value) + rest, hops + 1,
                       if Trails(rest) then names + [part] else names);
        }
      } else if candidate in host && !Trails(rest) && Trusted(host, root, candidate) {
        WalkIsStable(host, other, root, candidate, rest, hops, names);
      }
    }
  }

  /** Whatever others than root change, the path resolves, or is refused, as before. */
  lemma OnlyRootRedirects(host: Host, other: Host, root: nat, path: string)
    requires SameForRoot(host, other, root)
    ensures Resolve(other, root, path) == Resolve(host, root, path)
  {
    assert Same(host, other, root, []);
    if Trusted(host, root, []) {
      WalkIsStable(host, other, root, [], Split(path)[1..], 0, []);
    }
  }

  /** The file found lies in directories that are all trusted. */
  lemma {:induction false} FileIsInside(host: Host, root: nat, cur: Path, pending: seq<string>, hops: nat, names: seq<string>)
    requires hops <= MAX_LINK_HOPS && AllTrusted(host, root, cur)
    ensures var r := Walk(host, root, cur, pending, hops, names);
            r.Ok? ==> r.value.path != [] && AllTrusted(host, root, Parent(r.value.path))
    decreases MAX_LINK_HOPS - hops, |pending|
  {
    if pending != [] {
      var part, rest := pending[0], pending[1..];
      TrustedStep(host, root, cur, part);
      var candidate := cur + [part];
      assert Parent(candidate) == cur;
      if Skipped(part) {
        FileIsInside(host, root, cur, rest, hops, names);
      } else if part == ".." {
        FileIsInside(host, root, Parent(cur), rest, hops, names);
      } else if candidate in host && host[candidate].Link? {
        var target := host[candidate].target;
        if hops < MAX_LINK_HOPS && Readable(target) {
          FileIsInside(host, root, LinkBase(cur, target.value), Split(target.value) + rest, hops + 1,
                       if Trails(rest) then names + [part] else names);
        }
      } else if candidate in host && !Trails(rest) && Trusted(host, root, candidate) {
        FileIsInside(host, root, candidate, rest, hops, names);
      }
    }
  }

  /** And what runs is what root put there: the file found keeps owner, mode and content. */
  lemma OnlyRootRewrites(host: Host, other: Host, root: nat, path: string)
    requires SameForRoot(host, other, root) && Resolve(host, root, path).Ok?
    ensures var p := Resolve(host, root, path).value.path; p in host && p in other && other[p] == host[p]
  {
    assert AllTrusted(host, root, []);
    WalkIsSound(host, root, [], Split(path)[1..], 0, []);
    FileIsInside(host, root, [], Split(path)[1..], 0, []);
    var p := Resolve(host, root, path).value.path;
    TrustedIsGuarded(host, root, Parent(p));
    assert p == Parent(p) + [p[|p| - 1]];
  }
}
