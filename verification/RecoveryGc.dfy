/** Reclaiming recovery branches that preserve nothing unique
    (internal/agent/recovery_gc.go). */
module RecoveryGc {
  import opened Transcripts

  /** A session file as the scan sees it: what LoadSession gives (None when it fails),
      the recovery fields of its meta, and whether it is visible, idle long enough and
      leased. An empty parent or a missing digest is an absent field. */
  datatype Branch = Branch(loads: Option<Transcript>, visible: bool, recovered: bool, recoveryDigest: Option<Digest>,
          parent: string, idle: bool, leased: bool)

  type Directory = map<string, Branch>

  predicate CoveredByParent(dir: Directory, id: string) {
    && id in dir && dir[id].parent != "" && dir[id].loads.Some?
    && dir[id].recoveryDigest == Some(Digest(dir[id].loads.value))
    && dir[id].parent != id && dir[id].parent in dir && dir[dir[id].parent].visible && dir[dir[id].parent].loads.Some?
    && var branch, parent := dir[id].loads.value, dir[dir[id].parent].loads.value;
    parent == branch || branch <= parent || CompatiblePrefix(parent, branch)
  }

  predicate Reclaimable(dir: Directory, id: string) {
    id in dir && dir[id].visible && dir[id].recovered && dir[id].recoveryDigest.Some? && dir[id].parent != ""
    && dir[id].idle && !dir[id].leased
    && CoveredByParent(dir, id)
  }

  function ReclaimableAmong(dir: Directory, entries: seq<string>): (out: seq<string>)
    ensures forall id :: id in out <==> id in entries && Reclaimable(dir, id)
  {
    if entries == [] then []
    else
      var last := entries[|entries| - 1];
      assert forall id :: id in entries <==> id in entries[..|entries| - 1] || id == last;
      ReclaimableAmong(dir, entries[..|entries| - 1]) + if Reclaimable(dir, last) then [last] else []
  }

  /** The scan returns exactly the reclaimable entries, in directory order. */
  method ReclaimableRecoveryBranches(dir: Directory, entries: seq<string>) returns (out: seq<string>)
    requires forall e :: e in entries ==> e in dir
    ensures out == ReclaimableAmong(dir, entries)
    ensures forall id :: id in out <==> id in entries && Reclaimable(dir, id)
  {
    out := [];
    for i := 0 to |entries|
      invariant out == ReclaimableAmong(dir, entries[..i])
    {
      var id := entries[i];
      assert entries[..i + 1][..i] == entries[..i];
      var b := dir[id];
      if !b.visible || !b.recovered || b.recoveryDigest.None? || b.parent == "" || !b.idle || b.leased {
        continue;
      }
      if !CoveredByParent(dir, id) {
        continue;
      }
      out := out + [id];
    }
    assert entries[..|entries|] == entries;
  }

  /** The scan, told by the directory alone: visible recovery branches, idle and not leased,
      whose digest is still that of their messages, and whose messages another visible file,
      recorded as their parent, still holds up to a leading system message. */
  lemma {:induction false} ReclaimedExactly(dir: Directory, entries: seq<string>, id: string)
    ensures id in ReclaimableAmong(dir, entries) <==>
              && id in entries && id in dir
              && var b := dir[id];
                 && b.visible && b.recovered && b.idle && !b.leased && b.loads.Some?
                 && b.recoveryDigest == Some(Digest(b.loads.value))
                 && b.parent != "" && b.parent != id && b.parent in dir && dir[b.parent].visible
                 && dir[b.parent].loads.Some? && CompatiblePrefix(dir[b.parent].loads.value, b.loads.value)
  {
    if id in dir && dir[id].loads.Some? && dir[id].parent in dir && dir[dir[id].parent].loads.Some? {
      var branch, parent := dir[id].loads.value, dir[dir[id].parent].loads.value;
      if branch <= parent {
        PrefixIsCompatible(parent, branch);
      }
    }
  }

  /** And in directory order. */
  lemma {:induction false} ReclaimedInOrder(dir: Directory, a: seq<string>, b: seq<string>)
    ensures ReclaimableAmong(dir, a + b) == ReclaimableAmong(dir, a) + ReclaimableAmong(dir, b)
  {
    if b == [] {
      assert a + b == a;
    } else {
      assert (a + b)[..|a + b| - 1] == a + b[..|b| - 1];
      ReclaimedInOrder(dir, a, b[..|b| - 1]);
    }
  }

  function Ancestor(dir: Directory, id: string, n: nat): string {
    if n == 0 then id
    else
      var up := Ancestor(dir, id, n - 1);
      if up in dir then dir[up].parent else up
  }

  lemma {:induction false} AncestorOfParent(dir: Directory, id: string, n: nat)
    requires id in dir
    ensures Ancestor(dir, dir[id].parent, n) == Ancestor(dir, id, n + 1)
  {
    if n > 0 {
      AncestorOfParent(dir, id, n - 1);
    }
  }

  lemma {:induction false} ParentCovers(dir: Directory, id: string)
    requires CoveredByParent(dir, id)
    ensures CompatiblePrefix(dir[dir[id].parent].loads.value, dir[id].loads.value)
  {
    var branch, parent := dir[id].loads.value, dir[dir[id].parent].loads.value;
    if branch <= parent {
      PrefixIsCompatible(parent, branch);
    }
  }

  /** A surviving ancestor still holds this branch's messages, up to a leading system one. */
  predicate Survives(dir: Directory, gone: set<string>, id: string, n: nat) {
    var a := Ancestor(dir, id, n);
    && a in dir && a !in gone && dir[a].loads.Some?
    && id in dir && dir[id].loads.Some? && CompatiblePrefix(dir[a].loads.value, dir[id].loads.value)
  }

  /** Once the parent chain leaves the deleted set, what it leaves to, or an ancestor
      before that, covers the branch. */
  lemma {:induction false} ChainLeavesToCover(dir: Directory, gone: set<string>, id: string, n: nat) returns (m: nat)
    requires forall x :: x in gone ==> Reclaimable(dir, x)
    requires id in gone
    requires Ancestor(dir, id, n) !in gone
    ensures 0 < m <= n && Survives(dir, gone, id, m)
    decreases n
  {
    assert Reclaimable(dir, id);
    var p := dir[id].parent;
    ParentCovers(dir, id);
    AncestorOfParent(dir, id, n - 1);
    if p in gone {
      var k := ChainLeavesToCover(dir, gone, p, n - 1);
      AncestorOfParent(dir, id, k);
      CompatiblePrefixTransitive(dir[Ancestor(dir, p, k)].loads.value, dir[p].loads.value, dir[id].loads.value);
      m := k + 1;
    } else {
      AncestorOfParent(dir, id, 0);
      m := 1;
    }
  }

  /** Bulk reclamation, exactly: delete any set of reclaimable branches at once, and the
      messages of a deleted one are still a prefix of a surviving ancestor's if and only
      if its parent chain leaves the deleted set. */
  lemma {:induction false} BulkReclaimExactly(dir: Directory, gone: set<string>, id: string)
    requires forall x :: x in gone ==> Reclaimable(dir, x)
    requires id in gone
    ensures (exists n: nat :: Survives(dir, gone, id, n)) <==> (exists n: nat :: Ancestor(dir, id, n) !in gone)
  {
    if n: nat :| Ancestor(dir, id, n) !in gone {
      var m := ChainLeavesToCover(dir, gone, id, n);
    }
    if n: nat :| Survives(dir, gone, id, n) {
      assert Ancestor(dir, id, n) !in gone;
    }
  }

  /** In particular when the parents of deleted branches do not go round in a circle. */
  lemma {:induction false} BulkReclaimIsSafe(dir: Directory, gone: set<string>, rank: map<string, nat>, id: string)
      returns (n: nat)
    requires forall x :: x in gone ==> Reclaimable(dir, x)
    requires gone <= dir.Keys && gone <= rank.Keys
    requires forall x :: x in gone && dir[x].parent in gone ==> rank[dir[x].parent] < rank[x]
    requires id in gone
    ensures Survives(dir, gone, id, n)
  {
    n := ChainLeaves(dir, gone, rank, id);
    n := ChainLeavesToCover(dir, gone, id, n);
  }

  lemma {:induction false} ChainLeaves(dir: Directory, gone: set<string>, rank: map<string, nat>, id: string)
    returns (n: nat)
    requires gone <= dir.Keys && gone <= rank.Keys
    requires forall x :: x in gone && dir[x].parent in gone ==> rank[dir[x].parent] < rank[x]
    requires id in gone
    ensures Ancestor(dir, id, n) !in gone
    decreases rank[id]
  {
    if dir[id].parent in gone {
      n := ChainLeaves(dir, gone, rank, dir[id].parent);
      AncestorOfParent(dir, id, n);
      n := n + 1;
    } else {
      AncestorOfParent(dir, id, 0);
      n := 1;
    }
  }

  /** Such a circle loses both: two branches that name each other as parent and hold the same
      turn are both reclaimable, and nothing survives them. */
  lemma {:induction false} CyclicLineageLosesBoth(t: Transcript)
    ensures var b := (p: string) => Branch(Some(t), true, true, Some(Digest(t)), p, true, false);
            var dir := map["a" := b("b"), "b" := b("a")];
            Reclaimable(dir, "a") && Reclaimable(dir, "b")
  {
  }

  /** Deleting one by one, each only while its parent still covers it (the parent guard),
      needs no such assumption. */
  predicate GuardedDeletions(dir: Directory, gone: seq<string>) {
    gone == [] || (CoveredByParent(dir, gone[0]) && GuardedDeletions(dir - {gone[0]}, gone[1..]))
  }

  lemma {:induction false} GuardedDeletionIsSafe(dir: Directory, gone: seq<string>, id: string) returns (keeper: string)
    requires GuardedDeletions(dir, gone) && id in dir && dir[id].loads.Some?
    ensures keeper in dir - (set x | x in gone)
    ensures dir[keeper].loads.Some?
    ensures CompatiblePrefix(dir[keeper].loads.value, dir[id].loads.value)
    decreases |gone|
  {
    if gone == [] {
      keeper := id;
    } else {
      var rest := dir - {gone[0]};
      var next := id;
      if gone[0] == id {
        ParentCovers(dir, id);
        next := dir[id].parent;
      }
      keeper := GuardedDeletionIsSafe(rest, gone[1..], next);
      assert forall x :: x in gone <==> x == gone[0] || x in gone[1..];
      if next != id {
        CompatiblePrefixTransitive(dir[keeper].loads.value, dir[next].loads.value, dir[id].loads.value);
      }
    }
  }
}
