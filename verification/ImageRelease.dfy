/**
 Publishing, rolling back and cleaning up release images (`scripts/local_image_release.py`),
 over a table of tags. Builds, smoke runs and the containers in use are parameters.
 */
module ImageRelease {
  import opened Wrappers
  import opened Text

  type Id = string

  datatype Info = Info(created: string, revision: string, managed: bool)

  /** Commit tags in listing order, and the stable tag. */
  datatype Repo = Repo(images: map<Id, Info>, shas: seq<(string, Id)>, stable: Option<Id>)

  datatype Tagged = Tagged(id: Id, info: Info)

  predicate Hex(c: char) {
    '0' <= c <= '9' || 'a' <= c <= 'f'
  }

  predicate FullSha(s: string) {
    |s| == 40 && forall i :: 0 <= i < 40 ==> Hex(s[i])
  }

  // ---------------------------------------------------------------- tags

  function IdOf(shas: seq<(string, Id)>, sha: string): Option<Id> {
    if shas == [] then None
    else if shas[0].0 == sha then Some(shas[0].1)
    else IdOf(shas[1..], sha)
  }

  function Untag(shas: seq<(string, Id)>, sha: string): seq<(string, Id)> {
    if shas == [] then []
    else if shas[0].0 == sha then Untag(shas[1..], sha)
    else [shas[0]] + Untag(shas[1..], sha)
  }

  predicate IsManaged(images: map<Id, Info>, id: Id, sha: string) {
    id in images && images[id].managed && images[id].revision == sha
  }

  // ---------------------------------------------------------------- cleanup

  /** `list_managed_sha_images`. */
  function Listed(images: map<Id, Info>, shas: seq<(string, Id)>): seq<Tagged> {
    if shas == [] then []
    else
      var (sha, id) := shas[0];
      (if FullSha(sha) && IsManaged(images, id, sha) then [Tagged(id, images[id])] else []) + Listed(images, shas[1..])
  }

  /** Newest first, by creation and then revision. */
  predicate Newer(a: Tagged, b: Tagged) {
    if a.info.created != b.info.created then !Leq(a.info.created, b.info.created)
    else !Leq(a.info.revision, b.info.revision)
  }

  function Insert(x: Tagged, xs: seq<Tagged>): seq<Tagged> {
    if xs == [] then [x]
    else if Newer(xs[0], x) then [xs[0]] + Insert(x, xs[1..])
    else [x] + xs
  }

  function Sorted(xs: seq<Tagged>): seq<Tagged> {
    if xs == [] then [] else Insert(xs[0], Sorted(xs[1..]))
  }

  /** The revisions kept: stable's, then the newest until there are `keep`. */
  function Retained(kept: set<string>, images: seq<Tagged>, keep: nat): set<string>
    decreases |images|
  {
    if images == [] || |kept| >= keep then kept
    else Retained(kept + {images[0].info.revision}, images[1..], keep)
  }

  function Pruned(shas: seq<(string, Id)>, images: seq<Tagged>, retained: set<string>, used: set<Id>): seq<(string, Id)>
    decreases |images|
  {
    if images == [] then shas
    else
      var x := images[0];
      Pruned(if x.info.revision in retained || x.id in used then shas else Untag(shas, x.info.revision),
             images[1..], retained, used)
  }

  predicate HasTag(images: seq<Tagged>, id: Id, sha: string) {
    exists i :: 0 <= i < |images| && images[i].id == id && images[i].info.revision == sha
  }

  function Kept(r: Repo, keep: nat): set<string>
    requires r.stable.Some? && r.stable.value in r.images
  {
    Retained({r.images[r.stable.value].revision}, Sorted(Listed(r.images, r.shas)), keep)
  }

  /** `cleanup`; an error leaves the tags alone. */
  function Cleaned(r: Repo, keep: int, used: set<Id>): Result<Repo> {
    var images := Sorted(Listed(r.images, r.shas));
    if keep < 1 then Err("keep must be at least 1")
    else if r.stable.None? then Err("local-stable is missing")
    else if r.stable.value !in r.images || !r.images[r.stable.value].managed || !FullSha(r.images[r.stable.value].revision)
    then Err("local-stable is not a managed SHA image")
    else if !HasTag(images, r.stable.value, r.images[r.stable.value].revision) then Err("local-stable has no matching tag")
    else Ok(r.(shas := Pruned(r.shas, images, Kept(r, keep), used)))
  }

  // ---------------------------------------------------------------- publishing and rolling back

  /** What happened to a build: the image's identifier and creation time, or nothing. */
  datatype Action =
    | Publish(sha: string, keep: int, build: Option<(Id, string)>, smoke: bool, used: set<Id>)
    | Rollback(sha: string)

  /** A build labels its image with the commit; an identifier already known has the image it has. */
  function Built(images: map<Id, Info>, id: Id, created: string, sha: string): map<Id, Info> {
    if id in images then images else images[id := Info(created, sha, true)]
  }

  /** Errors after the stable tag was moved leave it moved. */
  function AfterCleanup(r: Repo, keep: int, used: set<Id>): Repo {
    match Cleaned(r, keep, used)
    case Ok(after) => after
    case Err(_) => r
  }

  function Step(r: Repo, a: Action): Repo {
    match a
    case Rollback(sha) =>
      if !FullSha(sha) then r
      else
        var id := IdOf(r.shas, sha);
        if id.None? || !IsManaged(r.images, id.value, sha) then r else r.(stable := id)
    case Publish(sha, keep, build, smoke, used) =>
      if !FullSha(sha) then r
      else
        match IdOf(r.shas, sha)
        case Some(id) =>
          if !IsManaged(r.images, id, sha) || !smoke then r
          else AfterCleanup(r.(stable := Some(id)), keep, used)
        case None =>
          if build.None? then r
          else
            var (id, created) := build.value;
            var images := Built(r.images, id, created, sha);
            if !IsManaged(images, id, sha) || !smoke then r.(images := images)
            else AfterCleanup(Repo(images, r.shas + [(sha, id)], Some(id)), keep, used)
  }

  function Run(r: Repo, actions: seq<Action>): Repo {
    if actions == [] then r else Step(Run(r, actions[..|actions| - 1]), actions[|actions| - 1])
  }

  // ---------------------------------------------------------------- what every run keeps

  ghost predicate OneTagEach(shas: seq<(string, Id)>) {
    forall i, j :: 0 <= i < j < |shas| ==> shas[i].0 != shas[j].0
  }

  /** Stable names a managed image that still has its own commit tag. */
  ghost predicate StableSound(r: Repo) {
    r.stable.Some? ==>
      && r.stable.value in r.images && r.images[r.stable.value].managed && FullSha(r.images[r.stable.value].revision)
      && IdOf(r.shas, r.images[r.stable.value].revision) == r.stable
  }

  ghost predicate Sound(r: Repo) {
    OneTagEach(r.shas) && StableSound(r)
  }

  /** No commit tag of `before` points elsewhere in `after`. */
  ghost predicate NeverRepointed(before: seq<(string, Id)>, after: seq<(string, Id)>) {
    forall sha :: IdOf(before, sha).Some? && IdOf(after, sha).Some? ==> IdOf(after, sha) == IdOf(before, sha)
  }

  /** Every commit tag of `after` is one of `before`. */
  ghost predicate OnlyRemoves(before: seq<(string, Id)>, after: seq<(string, Id)>) {
    forall sha :: IdOf(after, sha).Some? ==> IdOf(after, sha) == IdOf(before, sha)
  }

  lemma {:induction false} UntagMeans(shas: seq<(string, Id)>, sha: string, other: string)
    ensures IdOf(Untag(shas, sha), other) == if other == sha then None else IdOf(shas, other)
  {
    if shas == [] {
    } else {
      UntagMeans(shas[1..], sha, other);
    }
  }

  lemma {:induction false} UntagMembers(shas: seq<(string, Id)>, sha: string)
    ensures forall x :: x in Untag(shas, sha) <==> x in shas && x.0 != sha
  {
    if shas == [] {
    } else {
      UntagMembers(shas[1..], sha);
      assert shas == [shas[0]] + shas[1..];
    }
  }

  lemma {:induction false} UntagKeepsOne(shas: seq<(string, Id)>, sha: string)
    requires OneTagEach(shas)
    ensures OneTagEach(Untag(shas, sha))
  {
    if shas == [] {
    } else {
      UntagKeepsOne(shas[1..], sha);
      UntagMembers(shas[1..], sha);
      var rest := Untag(shas[1..], sha);
      assert forall x :: x in shas[1..] ==> x.0 != shas[0].0;
      forall j | 0 <= j < |rest|
        ensures rest[j].0 != shas[0].0
      {
        assert rest[j] in rest;
      }
    }
  }

  /** Pruning removes exactly the listed revisions that are neither kept nor in use. */
  ghost predicate Removed(images: seq<Tagged>, retained: set<string>, used: set<Id>, sha: string) {
    exists i :: 0 <= i < |images| && images[i].info.revision == sha && sha !in retained && images[i].id !in used
  }

  lemma {:induction false} PrunedMeans(shas: seq<(string, Id)>, images: seq<Tagged>, retained: set<string>, used: set<Id>, sha: string)
    ensures IdOf(Pruned(shas, images, retained, used), sha) ==
            if Removed(images, retained, used, sha) then None else IdOf(shas, sha)
    decreases |images|
  {
    if images == [] {
    } else {
      var x, rest := images[0], images[1..];
      var next := if x.info.revision in retained || x.id in used then shas else Untag(shas, x.info.revision);
      UntagMeans(shas, x.info.revision, sha);
      PrunedMeans(next, rest, retained, used, sha);
      assert forall i :: 0 <= i < |rest| ==> images[i + 1] == rest[i];
      assert forall i :: 1 <= i < |images| ==> images[i] == rest[i - 1];
    }
  }

  lemma {:induction false} PrunedKeepsOne(shas: seq<(string, Id)>, images: seq<Tagged>, retained: set<string>, used: set<Id>)
    requires OneTagEach(shas)
    ensures OneTagEach(Pruned(shas, images, retained, used))
    decreases |images|
  {
    if images == [] {
    } else {
      UntagKeepsOne(shas, images[0].info.revision);
      var x := images[0];
      PrunedKeepsOne(if x.info.revision in retained || x.id in used then shas else Untag(shas, x.info.revision), images[1..], retained, used);
    }
  }

  lemma {:induction false} RetainedGrows(kept: set<string>, images: seq<Tagged>, keep: nat)
    ensures kept <= Retained(kept, images, keep)
    ensures |kept| <= keep ==> |Retained(kept, images, keep)| <= keep
    decreases |images|
  {
    if images != [] && |kept| < keep {
      RetainedGrows(kept + {images[0].info.revision}, images[1..], keep);
    }
  }

  /** The `keep - |kept|` newest are always among those kept. */
  lemma {:induction false} NewestAreRetained(kept: set<string>, images: seq<Tagged>, keep: nat, i: nat)
    requires i < |images| && |kept| + i < keep
    ensures images[i].info.revision in Retained(kept, images, keep)
    decreases |images|
  {
    var more := kept + {images[0].info.revision};
    assert |more| <= |kept| + 1;
    RetainedGrows(more, images[1..], keep);
    if i == 0 {
    } else {
      NewestAreRetained(more, images[1..], keep, i - 1);
    }
  }

  /**
   What a successful cleanup does: it unlinks exactly the listed commits outside the kept ones
   whose image no container uses. The kept are at most `keep`: stable's, and the `keep - 1` newest.
   */
  lemma {:induction false} CleanupRetains(r: Repo, keep: int, used: set<Id>)
    requires Cleaned(r, keep, used).Ok?
    ensures r.stable.Some? && r.stable.value in r.images && keep >= 1
    ensures var kept, images := Kept(r, keep), Sorted(Listed(r.images, r.shas));
            && r.images[r.stable.value].revision in kept && |kept| <= keep
            && (forall i: nat :: i < |images| && i + 1 < keep ==> images[i].info.revision in kept)
            && (forall sha :: IdOf(Cleaned(r, keep, used).value.shas, sha) ==
                              if Removed(images, kept, used, sha) then None else IdOf(r.shas, sha))
  {
    var kept, images := Kept(r, keep), Sorted(Listed(r.images, r.shas));
    var stable := {r.images[r.stable.value].revision};
    RetainedGrows(stable, images, keep);
    forall i: nat | i < |images| && i + 1 < keep
      ensures images[i].info.revision in kept
    {
      NewestAreRetained(stable, images, keep, i);
    }
    forall sha
      ensures IdOf(Pruned(r.shas, images, kept, used), sha) == if Removed(images, kept, used, sha) then None else IdOf(r.shas, sha)
    {
      PrunedMeans(r.shas, images, kept, used, sha);
    }
  }

  lemma {:induction false} CleanupKeeps(r: Repo, keep: int, used: set<Id>)
    requires Sound(r)
    ensures Sound(AfterCleanup(r, keep, used)) && OnlyRemoves(r.shas, AfterCleanup(r, keep, used).shas)
  {
    if Cleaned(r, keep, used).Ok? {
      CleanupRetains(r, keep, used);
      PrunedKeepsOne(r.shas, Sorted(Listed(r.images, r.shas)), Kept(r, keep), used);
    }
  }

  lemma {:induction false} TagMeans(shas: seq<(string, Id)>, sha: string, id: Id, other: string)
    requires IdOf(shas, sha).None?
    ensures IdOf(shas + [(sha, id)], other) == if other == sha then Some(id) else IdOf(shas, other)
  {
    if shas == [] {
      assert shas + [(sha, id)] == [(sha, id)];
    } else {
      assert (shas + [(sha, id)])[1..] == shas[1..] + [(sha, id)];
      TagMeans(shas[1..], sha, id, other);
    }
  }

  lemma {:induction false} NoTag(shas: seq<(string, Id)>, sha: string)
    ensures IdOf(shas, sha).None? <==> forall i :: 0 <= i < |shas| ==> shas[i].0 != sha
  {
    if shas == [] {
    } else {
      NoTag(shas[1..], sha);
      assert forall i :: 0 <= i < |shas[1..]| ==> shas[i + 1] == shas[1..][i];
      assert forall i :: 1 <= i < |shas| ==> shas[i] == shas[1..][i - 1];
    }
  }

  lemma {:induction false} TaggedSound(r: Repo, images: map<Id, Info>, sha: string, id: Id)
    requires Sound(r) && FullSha(sha) && IdOf(r.shas, sha).None? && IsManaged(images, id, sha)
    ensures Sound(Repo(images, r.shas + [(sha, id)], Some(id))) && NeverRepointed(r.shas, r.shas + [(sha, id)])
  {
    NoTag(r.shas, sha);
    forall other
      ensures IdOf(r.shas + [(sha, id)], other) == if other == sha then Some(id) else IdOf(r.shas, other)
    {
      TagMeans(r.shas, sha, id, other);
    }
  }

  /** Every publish and rollback, whatever fails in it, keeps stable sound and re-points no commit tag. */
  lemma {:induction false} StepKeeps(r: Repo, a: Action)
    requires Sound(r)
    ensures Sound(Step(r, a)) && NeverRepointed(r.shas, Step(r, a).shas)
  {
    if a.Publish? && FullSha(a.sha) {
      match IdOf(r.shas, a.sha) {
        case Some(id) =>
          if IsManaged(r.images, id, a.sha) && a.smoke {
            CleanupKeeps(r.(stable := Some(id)), a.keep, a.used);
          }
        case None =>
          if a.build.Some? {
            var (id, created) := a.build.value;
            var images := Built(r.images, id, created, a.sha);
            if IsManaged(images, id, a.sha) && a.smoke {
              TaggedSound(r, images, a.sha, id);
              CleanupKeeps(Repo(images, r.shas + [(a.sha, id)], Some(id)), a.keep, a.used);
            }
          }
      }
    }
  }

  /** Over every sequence of publishes and rollbacks stable names a managed image with its own tag. */
  lemma {:induction false} RunKeeps(r: Repo, actions: seq<Action>)
    requires Sound(r)
    ensures Sound(Run(r, actions))
  {
    if actions == [] {
    } else {
      RunKeeps(r, actions[..|actions| - 1]);
      StepKeeps(Run(r, actions[..|actions| - 1]), actions[|actions| - 1]);
    }
  }

  /** A tag in use is never removed. */
  lemma {:induction false} InUseStays(r: Repo, keep: int, used: set<Id>, sha: string)
    requires Cleaned(r, keep, used).Ok? && OneTagEach(r.shas)
    requires IdOf(r.shas, sha).Some? && IdOf(r.shas, sha).value in used
    ensures IdOf(Cleaned(r, keep, used).value.shas, sha) == IdOf(r.shas, sha)
  {
    CleanupRetains(r, keep, used);
    var images := Sorted(Listed(r.images, r.shas));
    ListedMeans(r.images, r.shas);
    SortedMembers(Listed(r.images, r.shas));
    if Removed(images, Kept(r, keep), used, sha) {
      var i :| 0 <= i < |images| && images[i].info.revision == sha && images[i].id !in used;
      assert images[i] in images;
      assert images[i] in Listed(r.images, r.shas);
      HasIt(r.shas, sha, images[i].id);
    }
  }

  lemma {:induction false} ListedMeans(images: map<Id, Info>, shas: seq<(string, Id)>)
    ensures forall x :: x in Listed(images, shas) ==> (x.info.revision, x.id) in shas && x.id in images && images[x.id] == x.info && x.info.managed
    ensures forall sha, id :: (sha, id) in shas && FullSha(sha) && IsManaged(images, id, sha) ==> Tagged(id, images[id]) in Listed(images, shas)
  {
    if shas == [] {
    } else {
      ListedMeans(images, shas[1..]);
      assert shas == [shas[0]] + shas[1..];
      var (sha, id) := shas[0];
      assert (sha, id) in shas;
      var first := if FullSha(sha) && IsManaged(images, id, sha) then [Tagged(id, images[id])] else [];
      forall x | x in Listed(images, shas)
        ensures (x.info.revision, x.id) in shas && x.id in images && images[x.id] == x.info && x.info.managed
      {
        if x in first {
          assert x == Tagged(id, images[id]);
        } else {
          assert x in Listed(images, shas[1..]);
          assert (x.info.revision, x.id) in shas[1..];
        }
      }
    }
  }

  lemma {:induction false} InsertMembers(x: Tagged, xs: seq<Tagged>)
    ensures forall y :: y in Insert(x, xs) <==> y == x || y in xs
  {
    if xs == [] {
    } else {
      assert xs == [xs[0]] + xs[1..];
      InsertMembers(x, xs[1..]);
    }
  }

  lemma {:induction false} SortedMembers(xs: seq<Tagged>)
    ensures forall y :: y in Sorted(xs) <==> y in xs
  {
    if xs == [] {
    } else {
      assert xs == [xs[0]] + xs[1..];
      SortedMembers(xs[1..]);
      InsertMembers(xs[0], Sorted(xs[1..]));
    }
  }

  lemma {:induction false} HasIt(shas: seq<(string, Id)>, sha: string, id: Id)
    requires OneTagEach(shas) && (sha, id) in shas
    ensures IdOf(shas, sha) == Some(id)
  {
    var k :| 0 <= k < |shas| && shas[k] == (sha, id);
    if k == 0 {
    } else {
      assert shas[0].0 != shas[k].0;
      assert shas[1..][k - 1] == (sha, id);
      HasIt(shas[1..], sha, id);
    }
  }

  /** After a cleanup every commit still listed is kept or in use, so at most `keep` are unused. */
  lemma {:induction false} AtMostKeepUnused(r: Repo, keep: int, used: set<Id>, sha: string)
    requires Cleaned(r, keep, used).Ok? && OneTagEach(r.shas)
    requires FullSha(sha) && IdOf(r.shas, sha).Some? && IsManaged(r.images, IdOf(r.shas, sha).value, sha)
    requires IdOf(Cleaned(r, keep, used).value.shas, sha).Some?
    ensures r.stable.Some? && r.stable.value in r.images && keep >= 1
    ensures sha in Kept(r, keep) || IdOf(r.shas, sha).value in used
  {
    CleanupRetains(r, keep, used);
    var id := IdOf(r.shas, sha).value;
    InTags(r.shas, sha);
    ListedMeans(r.images, r.shas);
    SortedMembers(Listed(r.images, r.shas));
    var images := Sorted(Listed(r.images, r.shas));
    assert Tagged(id, r.images[id]) in images;
    var i :| 0 <= i < |images| && images[i] == Tagged(id, r.images[id]);
    assert images[i].info.revision == sha;
  }

  lemma {:induction false} InTags(shas: seq<(string, Id)>, sha: string)
    requires IdOf(shas, sha).Some?
    ensures (sha, IdOf(shas, sha).value) in shas
  {
    if shas[0].0 != sha {
      InTags(shas[1..], sha);
    }
  }

  // ---------------------------------------------------------------- newest first

  ghost predicate NewestFirst(xs: seq<Tagged>) {
    forall i, j :: 0 <= i < j < |xs| ==> !Newer(xs[j], xs[i])
  }

  lemma {:induction false} NewerOrders(a: Tagged, b: Tagged, c: Tagged)
    ensures Newer(a, b) ==> !Newer(b, a)
    ensures !Newer(a, b) && !Newer(b, c) ==> !Newer(a, c)
  {
    LeqTotal(a.info.created, b.info.created);
    LeqTotal(b.info.created, c.info.created);
    LeqTotal(a.info.revision, b.info.revision);
    if Leq(a.info.created, b.info.created) && Leq(b.info.created, c.info.created) {
      LeqTransitive(a.info.created, b.info.created, c.info.created);
      LeqTotal(a.info.created, c.info.created);
    }
    if Leq(a.info.revision, b.info.revision) && Leq(b.info.revision, c.info.revision) {
      LeqTransitive(a.info.revision, b.info.revision, c.info.revision);
    }
  }

  lemma {:induction false} InsertOrders(x: Tagged, xs: seq<Tagged>)
    requires NewestFirst(xs)
    ensures NewestFirst(Insert(x, xs))
  {
    if xs == [] {
    } else {
      var first := xs[0];
      NewerOrders(first, x, x);
      if Newer(first, x) {
        InsertOrders(x, xs[1..]);
        InsertMembers(x, xs[1..]);
        var rest := Insert(x, xs[1..]);
        forall j | 0 <= j < |rest|
          ensures !Newer(rest[j], first)
        {
          assert rest[j] in rest;
        }
      } else {
        forall j | 0 <= j < |xs|
          ensures !Newer(xs[j], x)
        {
          NewerOrders(xs[j], first, x);
          assert j > 0 ==> !Newer(xs[j], xs[0]);
        }
      }
    }
  }

  /** The order in which commits are kept: no image comes before a newer one. */
  lemma {:induction false} SortedIsNewestFirst(xs: seq<Tagged>)
    ensures NewestFirst(Sorted(xs))
  {
    if xs == [] {
    } else {
      SortedIsNewestFirst(xs[1..]);
      InsertOrders(xs[0], Sorted(xs[1..]));
    }
  }

  // ---------------------------------------------------------------- the tags, updated in place

  /** A publish that fails after promoting has at most added its own tag, and stable names that image. */
  ghost predicate Promoted(before: seq<(string, Id)>, after: seq<(string, Id)>, sha: string, stable: Option<Id>) {
    stable.Some? && (if IdOf(before, sha).Some? then after == before && IdOf(before, sha) == stable
                     else after == before + [(sha, stable.value)])
  }

  class Releases {
    var images: map<Id, Info>
    var shas: seq<(string, Id)>
    var stable: Option<Id>

    ghost function View(): Repo
      reads this
    {
      Repo(images, shas, stable)
    }

    method Cleanup(keep: int, used: set<Id>) returns (error: Option<string>)
      modifies `shas
      ensures match Cleaned(old(View()), keep, used)
              case Ok(after) => View() == after && error == None
              case Err(e) => View() == old(View()) && error == Some(e)
    {
      if keep < 1 {
        return Some("keep must be at least 1");
      }
      var listed := Sorted(Listed(images, shas));
      if stable.None? {
        return Some("local-stable is missing");
      }
      var id := stable.value;
      if id !in images || !images[id].managed || !FullSha(images[id].revision) {
        return Some("local-stable is not a managed SHA image");
      }
      if !HasTag(listed, id, images[id].revision) {
        return Some("local-stable has no matching tag");
      }
      var retained, i := {images[id].revision}, 0;
      while i < |listed| && |retained| < keep
        invariant 0 <= i <= |listed|
        invariant Retained({images[id].revision}, listed, keep) == Retained(retained, listed[i..], keep)
      {
        retained := retained + {listed[i].info.revision};
        i := i + 1;
      }
      var j := 0;
      while j < |listed|
        invariant 0 <= j <= |listed|
        invariant Pruned(old(shas), listed, retained, used) == Pruned(shas, listed[j..], retained, used)
      {
        var x := listed[j];
        if x.info.revision !in retained && x.id !in used {
          shas := Untag(shas, x.info.revision);
        }
        j := j + 1;
      }
      error := None;
    }

    method Rollback(sha: string) returns (error: Option<string>)
      modifies `stable
      ensures View() == Step(old(View()), Action.Rollback(sha))
      ensures error == None <==> FullSha(sha) && IdOf(shas, sha).Some? && IsManaged(images, IdOf(shas, sha).value, sha)
      ensures stable == if error == None then IdOf(shas, sha) else old(stable)
      ensures old(Sound(View())) ==> Sound(View())
    {
      ghost var before := View();
      if Sound(before) { StepKeeps(before, Action.Rollback(sha)); }
      if !FullSha(sha) {
        return Some("SHA must be 40 lowercase hexadecimal characters");
      }
      var id := IdOf(shas, sha);
      if id.None? || !IsManaged(images, id.value, sha) {
        return Some("rollback image is not a managed successful SHA image");
      }
      stable := id;
      error := None;
    }

    method Publish(sha: string, keep: int, build: Option<(Id, string)>, smoke: bool, used: set<Id>) returns (error: Option<string>)
      modifies this
      ensures View() == Step(old(View()), Action.Publish(sha, keep, build, smoke, used))
      ensures error == None ==> FullSha(sha) && smoke && keep >= 1 && stable.Some? && IsManaged(images, stable.value, sha)
      ensures error.Some? ==> (shas == old(shas) && stable == old(stable)) || (Promoted(old(shas), shas, sha, stable) && smoke)
      ensures old(Sound(View())) ==> Sound(View()) && NeverRepointed(old(shas), shas)
    {
      ghost var before := View();
      if Sound(before) { StepKeeps(before, Action.Publish(sha, keep, build, smoke, used)); }
      if !FullSha(sha) {
        return Some("SHA must be 40 lowercase hexadecimal characters");
      }
      var existing := IdOf(shas, sha);
      if existing.Some? {
        if !IsManaged(images, existing.value, sha) {
          return Some("immutable SHA tag conflicts with managed release metadata");
        }
        if !smoke {
          return Some("smoke run failed");
        }
        stable := existing;
        error := Cleanup(keep, used);
        return;
      }
      if build.None? {
        return Some("build failed");
      }
      var (id, created) := build.value;
      images := Built(images, id, created, sha);
      if !IsManaged(images, id, sha) {
        return Some("immutable SHA tag conflicts with managed release metadata");
      }
      if !smoke {
        return Some("smoke run failed");
      }
      shas := shas + [(sha, id)];
      stable := Some(id);
      error := Cleanup(keep, used);
    }
  }
}
