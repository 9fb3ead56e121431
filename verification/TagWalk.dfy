/**
 Following annotated tags to the commit they publish. A push may publish several heads;
 each head is walked through its chain of tags, and every tag on the way is handed to the
 scanner once, however many chains it is on.
 */
module TagWalk {
  import opened Options

  datatype Kind = Commit | Tag | Tree | Blob | Unknown(text: string)

  /** An object's type and, for a tag, its metadata. */
  datatype Object = Object(kind: Kind, data: string)

  /** What a tag's metadata declares: the identity and the type of its target. */
  datatype Target = Target(oid: string, kind: Kind)

  const MAX_DEPTH := 64

  function LowerChar(c: char): char {
    if 'A' <= c <= 'Z' then c - 'A' + 'a' else c
  }

  function Lower(s: string): string {
    seq(|s|, i requires 0 <= i < |s| => LowerChar(s[i]))
  }

  lemma {:induction false} LowerTwice(s: string)
    ensures Lower(Lower(s)) == Lower(s)
  {
  }

  predicate HexDigit(c: char) { '0' <= c <= '9' || 'a' <= c <= 'f' || 'A' <= c <= 'F' }

  predicate AllZero(s: string) { s != "" && forall i | 0 <= i < |s| :: s[i] == '0' }

  /** A well-formed object identity that names an object. */
  predicate Usable(s: string) {
    (|s| == 40 || |s| == 64) && (forall i | 0 <= i < |s| :: HexDigit(s[i])) && !AllZero(s)
  }

  predicate ZeroOid(s: string) { (|s| == 40 || |s| == 64) && AllZero(s) }

  /**
   The repository as the walk sees it: objects by identity, how tag metadata reads, and which
   object a revision names.
   */
  datatype Repo = Repo(lookup: string -> Option<Object>, declared: string -> Option<Target>,
                       parsed: string -> Option<string>)

  /** The object a revision stands for. */
  function Resolved(repo: Repo, revision: string): Option<string> {
    if revision == "" || '\0' in revision || revision[0] == '-' then None
    else if Usable(revision) then Some(Lower(revision))
    else if repo.parsed(revision).Some? &&
            Usable(repo.parsed(revision).value) then Some(Lower(repo.parsed(revision).value))
    else None
  }

  /**
   From `oid`, expected to be of the given type if any, the tags `tags` lead in this order
   to `commit`, and each declares the type its target has.
   */
  predicate Leads(repo: Repo, oid: string, expected: Option<Kind>, tags: seq<string>, commit: string)
    decreases |tags|
  {
    && Usable(oid)
    && repo.lookup(oid).Some?
    && var obj := repo.lookup(oid).value;
    && (expected.Some? ==> obj.kind == expected.value)
    && if tags == [] then obj.kind == Commit && oid == commit
       else
         && obj.kind == Tag && tags[0] == oid && repo.declared(obj.data).Some?
         && var next := repo.declared(obj.data).value;
         Leads(repo, Lower(next.oid), Some(next.kind), tags[1..], commit)
  }

  /** There is one way to lead on from an object, whatever was expected of it. */
  lemma {:induction false} LeadsOneWay(repo: Repo, oid: string, e: Option<Kind>, ts: seq<string>, c: string,
                                       f: Option<Kind>, us: seq<string>, d: string)
    requires Leads(repo, oid, e, ts, c) && Leads(repo, oid, f, us, d)
    ensures ts == us && c == d
    decreases |ts|
  {
    if ts != [] {
      var next := repo.declared(repo.lookup(oid).value.data).value;
      LeadsOneWay(repo, Lower(next.oid), Some(next.kind), ts[1..], c, Some(next.kind), us[1..], d);
      assert ts == [ts[0]] + ts[1..] && us == [us[0]] + us[1..];
    }
  }

  /** What is left of a chain after its first tags still leads on. */
  lemma {:induction false} LeadsFrom(repo: Repo, oid: string, e: Option<Kind>, ts: seq<string>, c: string, k: nat)
    returns (f: Option<Kind>)
    requires Leads(repo, oid, e, ts, c) && k < |ts|
    ensures Leads(repo, ts[k], f, ts[k..], c)
    decreases k
  {
    if k == 0 {
      f := e;
    } else {
      var next := repo.declared(repo.lookup(oid).value.data).value;
      f := LeadsFrom(repo, Lower(next.oid), Some(next.kind), ts[1..], c, k - 1);
      assert ts[1..][k - 1..] == ts[k..];
    }
  }

  /** A chain that leads anywhere meets no tag twice. */
  lemma {:induction false} LeadsDistinct(repo: Repo, oid: string, e: Option<Kind>, ts: seq<string>, c: string)
    requires Leads(repo, oid, e, ts, c)
    ensures forall i, j | 0 <= i < j < |ts| :: ts[i] != ts[j]
  {
    forall i, j | 0 <= i < j < |ts|
      ensures ts[i] != ts[j]
    {
      if ts[i] == ts[j] {
        var f := LeadsFrom(repo, oid, e, ts, c, i);
        var g := LeadsFrom(repo, oid, e, ts, c, j);
        LeadsOneWay(repo, ts[i], f, ts[i..], c, g, ts[j..], c);
      }
    }
  }

  // ---------------------------------------------------------------------------
  // What the scanner is given

  datatype Input = Input(oid: string, data: string)

  function Oids(inputs: seq<Input>): set<string> {
    set i | 0 <= i < |inputs| :: inputs[i].oid
  }

  predicate Once(inputs: seq<Input>) {
    forall i, j | 0 <= i < j < |inputs| :: inputs[i].oid != inputs[j].oid
  }

  /** The tags that were not there yet are added, in the order of the chain. */
  function Collect(repo: Repo, inputs: seq<Input>, tags: seq<string>): seq<Input> {
    if tags == [] then inputs
    else
      var n := |tags| - 1;
      var front := Collect(repo, inputs, tags[..n]);
      if tags[n] in Oids(front) || repo.lookup(tags[n]).None? then front
      else front + [Input(tags[n], repo.lookup(tags[n]).value.data)]
  }

  lemma {:induction false} OidsAppend(inputs: seq<Input>, input: Input)
    ensures Oids(inputs + [input]) == Oids(inputs) + {input.oid}
    ensures Once(inputs) && input.oid !in Oids(inputs) ==> Once(inputs + [input])
  {
    var all := inputs + [input];
    forall i | 0 <= i < |inputs|
      ensures all[i].oid in Oids(inputs)
    {
      assert all[i] == inputs[i];
    }
    forall o | o in Oids(inputs) + {input.oid}
      ensures o in Oids(all)
    {
      if o == input.oid {
        assert all[|inputs|].oid == o;
      } else {
        var i :| 0 <= i < |inputs| && inputs[i].oid == o;
        assert all[i].oid == o;
      }
    }
  }

  /** Collecting a chain of tags adds each of them exactly once and loses nothing. */
  lemma {:induction false} CollectExactly(repo: Repo, inputs: seq<Input>, tags: seq<string>)
    requires Once(inputs) && forall k | 0 <= k < |tags| :: repo.lookup(tags[k]).Some?
    ensures Once(Collect(repo, inputs, tags)) && inputs <= Collect(repo, inputs, tags)
    ensures Oids(Collect(repo, inputs, tags)) == Oids(inputs) + set k | 0 <= k < |tags| :: tags[k]
  {
    if tags != [] {
      var n := |tags| - 1;
      CollectExactly(repo, inputs, tags[..n]);
      var front := Collect(repo, inputs, tags[..n]);
      assert (set k | 0 <= k < |tags| :: tags[k]) == (set k | 0 <= k < n :: tags[..n][k]) + {tags[n]};
      OidsAppend(front, Input(tags[n], repo.lookup(tags[n]).value.data));
    }
  }

  // ---------------------------------------------------------------------------
  // Where a walk stands

  /** The chains from `start` are those that begin with `tags` and go on from `current`. */
  ghost predicate Onto(repo: Repo, start: string, tags: seq<string>, current: string, expected: Option<Kind>) {
    forall ts: seq<string>, c: string ::
      Leads(repo, start, None, ts, c) <==> tags <= ts && Leads(repo, current, expected, ts[|tags|..], c)
  }

  ghost predicate Nowhere(repo: Repo, start: string) {
    forall ts: seq<string>, c: string | |ts| <= MAX_DEPTH :: !Leads(repo, start, None, ts, c)
  }

  /** The walk can end or go on from here. */
  predicate Passable(repo: Repo, current: string, expected: Option<Kind>, depth: nat) {
    && Usable(current) && repo.lookup(current).Some?
    && var obj := repo.lookup(current).value;
    && (expected.Some? ==> obj.kind == expected.value)
    && (obj.kind == Commit || (obj.kind == Tag && depth < MAX_DEPTH && repo.declared(obj.data).Some?))
  }

  /** Being led back to a tag already passed, a chain leads nowhere. */
  lemma {:induction false} Revisited(repo: Repo, start: string, tags: seq<string>, current: string,
                                     expected: Option<Kind>, ts: seq<string>, c: string)
    requires current in tags && tags <= ts && Leads(repo, start, None, ts, c)
    ensures !Leads(repo, current, expected, ts[|tags|..], c)
  {
    if Leads(repo, current, expected, ts[|tags|..], c) {
      var k :| 0 <= k < |tags| && tags[k] == current;
      var f := LeadsFrom(repo, start, None, ts, c, k);
      LeadsOneWay(repo, current, f, ts[k..], c, expected, ts[|tags|..], c);
    }
  }

  lemma {:induction false} DeadEnd(repo: Repo, start: string, tags: seq<string>, current: string,
                                   expected: Option<Kind>)
    requires Onto(repo, start, tags, current, expected) && |tags| <= MAX_DEPTH
    requires current in tags || !Passable(repo, current, expected, |tags|)
    ensures Nowhere(repo, start)
  {
    forall ts: seq<string>, c: string | |ts| <= MAX_DEPTH
      ensures !Leads(repo, start, None, ts, c)
    {
      if Leads(repo, start, None, ts, c) && current in tags {
        Revisited(repo, start, tags, current, expected, ts, c);
      }
    }
  }

  lemma {:induction false} StepOn(repo: Repo, start: string, tags: seq<string>, current: string, expected: Option<Kind>,
                                  target: Target)
    requires Onto(repo, start, tags, current, expected)
    requires Usable(current) && repo.lookup(current).Some? && repo.lookup(current).value.kind == Tag
    requires expected.Some? ==> expected.value == Tag
    requires repo.declared(repo.lookup(current).value.data) == Some(target)
    ensures Onto(repo, start, tags + [current], Lower(target.oid), Some(target.kind))
  {
    var further := tags + [current];
    forall ts: seq<string>, c: string
      ensures Leads(repo, start, None, ts, c) <==>
              further <= ts && Leads(repo, Lower(target.oid), Some(target.kind), ts[|further|..], c)
    {
      if tags < ts {
        var rest := ts[|tags|..];
        assert rest[1..] == ts[|further|..] && rest[0] == ts[|tags|];
      } else if tags == ts {
        assert ts[|tags|..] == [];
      }
    }
  }

  /** A pushed revision publishes this commit through these tags. */
  predicate HeadOf(repo: Repo, revision: string, tags: seq<string>, commit: string) {
    && Resolved(repo, revision).Some? && |tags| <= MAX_DEPTH
    && Leads(repo, Lower(Resolved(repo, revision).value), None, tags, commit)
  }

  function AllTags(chains: seq<seq<string>>): set<string> {
    set i, k | 0 <= i < |chains| && 0 <= k < |chains[i]| :: chains[i][k]
  }

  lemma {:induction false} AllTagsAppend(chains: seq<seq<string>>, tags: seq<string>)
    ensures AllTags(chains + [tags]) == AllTags(chains) + set k | 0 <= k < |tags| :: tags[k]
  {
    var all := chains + [tags];
    forall i | 0 <= i < |chains|
      ensures all[i] == chains[i]
    {
    }
    forall o | o in AllTags(chains)
      ensures o in AllTags(all)
    {
      var i, k :| 0 <= i < |chains| && 0 <= k < |chains[i]| && chains[i][k] == o;
      assert all[i][k] == o;
    }
    forall o | o in tags
      ensures o in AllTags(all)
    {
      var k :| 0 <= k < |tags| && tags[k] == o;
      assert all[|chains|][k] == o;
    }
  }

  // ---------------------------------------------------------------------------
  // The walk

  class Publisher {
    const repo: Repo
    /** False if a Git call or the resource budget may fail at any point. */
    const reliable: bool
    var cache: map<string, Object>
    var scanned: set<string>
    var inputs: seq<Input>

    ghost predicate Valid()
      reads this
    {
      && (forall o | o in cache :: repo.lookup(o) == Some(cache[o]))
      && scanned == Oids(inputs) && Once(inputs)
    }

    constructor (repo: Repo, reliable: bool)
      ensures Valid() && inputs == [] && this.repo == repo && this.reliable == reliable
    {
      this.repo, this.reliable, cache, scanned, inputs := repo, reliable, map[], {}, [];
    }

    method Inspect(id: string) returns (r: Option<Object>)
      requires Valid()
      modifies this`cache
      ensures Valid()
      ensures r.Some? ==> Usable(id) && r == repo.lookup(Lower(id))
      ensures reliable && Usable(id) ==> r == repo.lookup(Lower(id))
    {
      if !Usable(id) {
        return None;
      }
      var oid := Lower(id);
      if oid in cache {
        return Some(cache[oid]);
      }
      var failed: bool := *;
      if failed && !reliable {
        return None;
      }
      r := repo.lookup(oid);
      if r.Some? {
        cache := cache[oid := r.value];
      }
    }

    method ConsumeTag(oid: string, data: string) returns (ok: bool)
      requires Valid()
      modifies this`scanned, this`inputs
      ensures Valid() && (reliable ==> ok)
      ensures inputs == if !ok || oid in Oids(old(inputs)) then old(inputs) else old(inputs) + [Input(oid, data)]
    {
      if oid in scanned {
        return true;
      }
      var failed: bool := *;
      if failed && !reliable {
        return false;
      }
      OidsAppend(inputs, Input(oid, data));
      inputs := inputs + [Input(oid, data)];
      scanned := scanned + {oid};
      ok := true;
    }

    /**
     Walks from an object to the commit it publishes. It finds a commit exactly when at
     most 64 tags lead to it, and hands those tags on in their order.
     */
    method Walk(start: string) returns (r: Option<string>, ghost tags: seq<string>)
      requires Valid()
      modifies this`cache, this`scanned, this`inputs
      ensures Valid()
      ensures r.Some? ==> |tags| <= MAX_DEPTH && Leads(repo, Lower(start), None, tags, r.value)
      ensures r.None? && reliable ==> Nowhere(repo, Lower(start))
      ensures inputs == Collect(repo, old(inputs), tags)
      ensures forall k | 0 <= k < |tags| :: repo.lookup(tags[k]).Some?
    {
      ghost var from := Lower(start);
      var current := Lower(start);
      var expected: Option<Kind> := None;
      var visited: set<string> := {};
      var tagDepth := 0;
      tags := [];
      LowerTwice(start);
      assert Onto(repo, from, tags, current, expected) by {
        assert forall ts: seq<string> :: ts[0..] == ts;
      }
      while true
        invariant Valid() && Lower(current) == current
        invariant tagDepth == |tags| <= MAX_DEPTH
        invariant forall o :: o in visited <==> o in tags
        invariant inputs == Collect(repo, old(inputs), tags)
        invariant forall k | 0 <= k < |tags| :: repo.lookup(tags[k]).Some?
        invariant Onto(repo, from, tags, current, expected)
        decreases MAX_DEPTH - tagDepth
      {
        if !Usable(current) || current in visited {
          DeadEnd(repo, from, tags, current, expected);
          return None, tags;
        }
        var found := Inspect(current);
        if found.None? {
          if reliable {
            DeadEnd(repo, from, tags, current, expected);
          }
          return None, tags;
        }
        var obj := found.value;
        if expected.Some? && obj.kind != expected.value {
          DeadEnd(repo, from, tags, current, expected);
          return None, tags;
        }
        if obj.kind == Commit {
          assert tags[|tags|..] == [];
          assert Leads(repo, current, expected, [], current);
          return Some(current), tags;
        }
        if obj.kind != Tag || tagDepth >= MAX_DEPTH || repo.declared(obj.data).None? {
          DeadEnd(repo, from, tags, current, expected);
          return None, tags;
        }
        var target := repo.declared(obj.data).value;
        var ok := ConsumeTag(current, obj.data);
        if !ok {
          return None, tags;
        }
        StepOn(repo, from, tags, current, expected, target);
        LowerTwice(target.oid);
        assert (tags + [current])[..|tags|] == tags;
        visited, tagDepth, tags := visited + {current}, tagDepth + 1, tags + [current];
        current, expected := Lower(target.oid), Some(target.kind);
      }
    }

    method ResolvePublishedHead(revision: string) returns (r: Option<string>, ghost tags: seq<string>)
      requires Valid()
      modifies this`cache, this`scanned, this`inputs
      ensures Valid()
      ensures r.Some? ==> HeadOf(repo, revision, tags, r.value)
      ensures r.None? && reliable ==> forall ts: seq<string>, c: string :: !HeadOf(repo, revision, ts, c)
      ensures inputs == Collect(repo, old(inputs), tags)
      ensures forall k | 0 <= k < |tags| :: repo.lookup(tags[k]).Some?
    {
      tags := [];
      var start := Resolved(repo, revision);
      var failed: bool := *;
      if start.None? || (failed && !reliable) {
        return None, tags;
      }
      r, tags := Walk(start.value);
    }

    /** Walks all the heads of a push; deletions of remote references publish nothing. */
    method CollectPush(heads: seq<string>)
      returns (ok: bool, ghost chains: seq<seq<string>>, commits: seq<Option<string>>)
      requires Valid()
      modifies this`cache, this`scanned, this`inputs
      ensures Valid() && old(inputs) <= inputs
      ensures ok ==> |chains| == |commits| == |heads|
      ensures ok ==> forall i | 0 <= i < |heads| ::
        if ZeroOid(heads[i]) then chains[i] == [] && commits[i] == None
        else commits[i].Some? && HeadOf(repo, heads[i], chains[i], commits[i].value)
      ensures !ok && reliable ==>
        exists i :: 0 <= i < |heads| && !ZeroOid(heads[i]) && forall ts: seq<string>,
        c: string :: !HeadOf(repo, heads[i], ts, c)
      ensures ok ==> Oids(inputs) == Oids(old(inputs)) + AllTags(chains)
    {
      ok, chains, commits := true, [], [];
      for i := 0 to |heads|
        invariant Valid() && old(inputs) <= inputs
        invariant |chains| == |commits| == i
        invariant forall k | 0 <= k < i ::
          if ZeroOid(heads[k]) then chains[k] == [] && commits[k] == None
          else commits[k].Some? && HeadOf(repo, heads[k], chains[k], commits[k].value)
        invariant Oids(inputs) == Oids(old(inputs)) + AllTags(chains)
      {
        if ZeroOid(heads[i]) {
          AllTagsAppend(chains, []);
          chains, commits := chains + [[]], commits + [None];
        } else {
          ghost var before := inputs;
          var commit, tags := ResolvePublishedHead(heads[i]);
          CollectExactly(repo, before, tags);
          if commit.None? {
            return false, chains, commits;
          }
          AllTagsAppend(chains, tags);
          chains, commits := chains + [tags], commits + [commit];
        }
      }
    }
  }
}
