/** Conversation messages, their storage digest, and the prefix relations that
    the session save path judges transcripts by (internal/agent/save.go). */
module Transcripts {

  datatype Option<+T> = None | Some(value: T)

  datatype Role = System | User | Assistant | Tool

  datatype ToolCall = ToolCall(id: string, name: string, arguments: string)

  datatype Message = Message(role: Role, content: string, name: string, toolCallId: string, calls: seq<ToolCall>)

  type Transcript = seq<Message>

  /** SHA-256 over the encoded messages, taken to be injective. */
  datatype Digest = Digest(of: Transcript)

  function WithoutLeadingSystem(t: Transcript): Transcript {
    if |t| > 0 && t[0].role.System? then t[1..] else t
  }

  /** full extends prefix up to a swap of the leading system message. */
  predicate CompatiblePrefix(full: Transcript, prefix: Transcript) {
    WithoutLeadingSystem(prefix) <= WithoutLeadingSystem(full)
  }

  lemma {:induction false} CompatiblePrefixReflexive(t: Transcript)
    ensures CompatiblePrefix(t, t)
  {
  }

  lemma {:induction false} CompatiblePrefixTransitive(c: Transcript, b: Transcript, a: Transcript)
    requires CompatiblePrefix(c, b) && CompatiblePrefix(b, a)
    ensures CompatiblePrefix(c, a)
  {
  }

  /** Equality and exact extension are special cases of the compatible prefix. */
  lemma {:induction false} PrefixIsCompatible(full: Transcript, prefix: Transcript)
    requires prefix <= full
    ensures CompatiblePrefix(full, prefix)
  {
    if |prefix| > 0 && prefix[0].role.System? {
      assert prefix[0] == full[0];
      assert full[1..][..|prefix| - 1] == prefix[1..];
    } else if |full| > 0 && full[0].role.System? {
      assert prefix == [];
    }
  }

  method MessagesHavePrefix(full: Transcript, prefix: Transcript) returns (ok: bool)
    ensures ok <==> prefix <= full
  {
    if |prefix| > |full| {
      return false;
    }
    for i := 0 to |prefix|
      invariant forall k :: 0 <= k < i ==> full[k] == prefix[k]
    {
      if full[i] != prefix[i] {
        return false;
      }
    }
    return true;
  }

  method MessagesHavePrefixWithCompatibleSystem(full: Transcript, prefix: Transcript) returns (ok: bool)
    ensures ok <==> CompatiblePrefix(full, prefix)
  {
    ok := MessagesHavePrefix(WithoutLeadingSystem(full), WithoutLeadingSystem(prefix));
  }

  /** The only depth at which a running digest over t can match: a non-empty
      target that is itself a prefix, found at its own length. */
  function PrefixDepth(t: Transcript, target: Digest): (depth: int)
    ensures depth == -1 || (depth == |target.of| > 0 && target.of <= t)
    ensures depth == -1 <==> target.of == [] || !(target.of <= t)
  {
    if target.of != [] && target.of <= t then |target.of| else -1
  }

  method MessagesPrefixDigestDepth(t: Transcript, target: Digest) returns (depth: int)
    ensures depth == PrefixDepth(t, target)
  {
    var sum := Digest([]);
    for i := 0 to |t|
      invariant sum.of == t[..i]
      invariant forall k :: 0 < k <= i ==> Digest(t[..k]) != target
    {
      sum := Digest(sum.of + [t[i]]);
      assert sum.of == t[..i + 1];
      if sum == target {
        return i + 1;
      }
    }
    assert target.of <= t ==> t[..|target.of|] == target.of;
    return -1;
  }

  /** Whether an append-shaped write still reaches everything the saver ever
      persisted: the baseline lies on the snapshot, possibly under the system
      message still on disk, and the disk transcript extends at least that far. */
  predicate CoversBaseline(next: Transcript, existing: Transcript, baseline: Digest) {
    var direct := PrefixDepth(next, baseline);
    var depth :=
      if direct < 0 && |next| > 0 && |existing| > 0 && next[0].role.System? && existing[0].role.System?
          && next[0] != existing[0]
      then PrefixDepth([existing[0]] + next[1..], baseline)
      else direct;
    depth >= 0 && |existing| >= depth
  }

  method AppendCoversPersistedBaseline(next: Transcript, existing: Transcript, baseline: Digest) returns (ok: bool)
    ensures ok <==> CoversBaseline(next, existing, baseline)
  {
    var depth := MessagesPrefixDigestDepth(next, baseline);
    if depth < 0 && |next| > 0 && |existing| > 0 && next[0].role.System? && existing[0].role.System?
        && next[0] != existing[0] {
      var variant := [existing[0]] + next[1..];
      depth := MessagesPrefixDigestDepth(variant, baseline);
    }
    ok := depth >= 0 && |existing| >= depth;
  }

  /** A disk transcript cut below the baseline is never covered, whatever is being
      saved and whichever system message it starts with. */
  lemma {:induction false} RewoundIsNotCovered(next: Transcript, existing: Transcript, baseline: Digest)
    requires |existing| < |baseline.of|
    ensures !CoversBaseline(next, existing, baseline)
  {
  }

  predicate LeadsWithSystem(t: Transcript) {
    |t| > 0 && t[0].role.System?
  }

  /** A baseline that is still reached: non-empty, no longer than what is stored, and a
      prefix of the snapshot or, if both lead with a system message, of what is stored. */
  predicate StillReached(next: Transcript, existing: Transcript, baseline: Transcript) {
    && 0 < |baseline| <= |existing|
    && (baseline <= next || (baseline <= existing && LeadsWithSystem(next) && LeadsWithSystem(existing)))
  }

  /** The coverage check, on the path it is made for: the snapshot extends what is stored
      up to a leading system message. */
  lemma {:induction false} CoveredExactly(next: Transcript, existing: Transcript, baseline: Digest)
    requires CompatiblePrefix(next, existing)
    ensures CoversBaseline(next, existing, baseline) <==> StillReached(next, existing, baseline.of)
  {
    var b := baseline.of;
    if LeadsWithSystem(next) && LeadsWithSystem(existing) {
      var variant := [existing[0]] + next[1..];
      assert existing == variant[..|existing|] by {
        assert existing[1..] == next[1..][..|existing| - 1];
        assert forall i :: 0 < i < |existing| ==> existing[i] == existing[1..][i - 1] == next[1..][i - 1];
      }
      if |b| <= |existing| {
        assert variant[..|b|] == existing[..|b|];
        assert b <= variant <==> b == variant[..|b|];
        assert b <= existing <==> b == existing[..|b|];
      }
      assert next[0] == existing[0] ==> variant == next;
    }
  }
}
