/**
  The pump for one output stream of a command: chunks are coalesced, cut off at
  the byte cap, and either sent as deltas or collected for the final reply.
 */
module OutputPump {
  import opened Text

  type Byte = bv8
  type Bytes = seq<Byte>

  const OUTPUT_CHUNK_SIZE_HINT: nat := 64 * 1024

  datatype Delta = Delta(process: string, bytes: Bytes, capReached: bool)

  function Flat(chunks: seq<Bytes>): Bytes {
    if chunks == [] then [] else Flat(chunks[..|chunks| - 1]) + chunks[|chunks| - 1]
  }

  function Sent(deltas: seq<Delta>): Bytes {
    if deltas == [] then [] else Sent(deltas[..|deltas| - 1]) + deltas[|deltas| - 1].bytes
  }

  /** The first bytes of a stream, up to the cap. */
  function Kept(cap: Option<nat>, bytes: Bytes): Bytes {
    match cap
    case Some(n) => if n < |bytes| then bytes[..n] else bytes
    case None => bytes
  }

  /** The number of bytes counted against the cap; nothing is counted without one. */
  function Observed(cap: Option<nat>, bytes: Bytes): nat {
    if cap.Some? then |Kept(cap, bytes)| else 0
  }

  function SaturatingSub(a: nat, b: nat): nat { if a < b then 0 else a - b }

  function Min(a: nat, b: nat): nat { if a < b then a else b }

  lemma FlatMore(chunks: seq<Bytes>, chunk: Bytes)
    ensures Flat(chunks + [chunk]) == Flat(chunks) + chunk
  {
    assert (chunks + [chunk])[..|chunks|] == chunks;
  }

  lemma SentMore(deltas: seq<Delta>, d: Delta)
    ensures Sent(deltas + [d]) == Sent(deltas) + d.bytes
  {
    assert (deltas + [d])[..|deltas|] == deltas;
  }

  /** Cutting chunk by chunk against the running count is cutting the whole stream once. */
  lemma CutAtCap(cap: nat, seen: Bytes, chunk: Bytes)
    ensures var observed := |Kept(Some(cap), seen)|;
            var len := Min(SaturatingSub(cap, observed), |chunk|);
            Kept(Some(cap), seen + chunk) == Kept(Some(cap), seen) + chunk[..len]
  {
    var observed := |Kept(Some(cap), seen)|;
    var len := Min(SaturatingSub(cap, observed), |chunk|);
    if cap < |seen| {
      assert chunk[..len] == [] && (seen + chunk)[..cap] == seen[..cap];
    } else if cap < |seen + chunk| {
      assert (seen + chunk)[..cap] == seen + chunk[..cap - |seen|];
    } else {
      assert chunk[..len] == chunk;
    }
  }

  /** One batch: the chunk waited for and those already there, until the hint is passed. */
  method Coalesce(incoming: seq<Bytes>, from: nat, ready: nat -> bool) returns (chunk: Bytes, next: nat)
    requires from < |incoming|
    ensures from < next <= |incoming|
    ensures Flat(incoming[..from]) + chunk == Flat(incoming[..next])
    ensures next == |incoming| || !ready(next) || OUTPUT_CHUNK_SIZE_HINT <= |chunk|
  {
    ghost var seen := Flat(incoming[..from]);
    chunk, next := incoming[from], from + 1;
    assert incoming[..next] == incoming[..from] + [incoming[from]];
    FlatMore(incoming[..from], incoming[from]);
    while |chunk| < OUTPUT_CHUNK_SIZE_HINT && next < |incoming| && ready(next)
      invariant from < next <= |incoming|
      invariant seen + chunk == Flat(incoming[..next])
    {
      assert incoming[..next + 1] == incoming[..next] + [incoming[next]];
      FlatMore(incoming[..next], incoming[next]);
      Regroup(seen, chunk, incoming[next]);
      chunk := chunk + incoming[next];
      next := next + 1;
    }
  }

  /** The deltas are those of a stream of which `data` has been read. */
  ghost predicate DeltasOf(deltas: seq<Delta>, process: string, cap: Option<nat>, read: nat, data: Bytes) {
    && Sent(deltas) == Kept(cap, data)
    && (deltas == [] <==> read == 0)
    && (forall i | 0 <= i < |deltas| :: deltas[i].process == process)
    && (forall i | 0 <= i < |deltas| :: deltas[i].capReached <==> i == |deltas| - 1 && cap == Some(|Kept(cap, data)|))
  }

  lemma OneMoreDelta(deltas: seq<Delta>, process: string, cap: Option<nat>, read: nat, data: Bytes, chunk: Bytes, d: Delta, more: nat)
    requires DeltasOf(deltas, process, cap, read, data) && (deltas != [] ==> cap != Some(|Kept(cap, data)|)) && read < more
    requires d.process == process && Kept(cap, data) + d.bytes == Kept(cap, data + chunk)
    requires d.capReached <==> cap == Some(|Kept(cap, data + chunk)|)
    ensures DeltasOf(deltas + [d], process, cap, more, data + chunk)
  {
    SentMore(deltas, d);
  }

  // ---- One turn of the loop ----

  /** How a stream is pumped: sent as deltas for `process`, or buffered; up to `cap` bytes. */
  datatype Config = Config(streamOutput: bool, process: Option<string>, cap: Option<nat>)

  /** Where a pump stands after reading `read` chunks, which make up `data`. */
  datatype Progress = Progress(
    read: nat, data: Bytes, observed: nat, capReached: bool, deltas: seq<Delta>, buffer: Bytes)

  const UNREAD: Progress := Progress(0, [], 0, false, [], [])

  /** How much of a chunk the cap still lets through. */
  function Allowed(cap: Option<nat>, observed: nat, chunk: Bytes): nat {
    match cap case Some(n) => Min(SaturatingSub(n, observed), |chunk|) case None => |chunk|
  }

  /** `chunk` is what `n` further chunks have been coalesced into. */
  function Turn(c: Config, p: Progress, chunk: Bytes, n: nat): Progress {
    var len := Allowed(c.cap, p.observed, chunk);
    var capped, observed := chunk[..len], if c.cap.Some? then p.observed + len else p.observed;
    var capReached := Some(observed) == c.cap;
    Progress(
      p.read + n, p.data + chunk, observed, capReached,
      p.deltas + (if c.streamOutput && c.process.Some? then [Delta(c.process.value, capped, capReached)] else []),
      p.buffer + if c.streamOutput then [] else capped)
  }

  /** What has been sent, or else buffered, is what the cap keeps of the data read. */
  ghost predicate Faithful(c: Config, p: Progress) {
    && p.observed == Observed(c.cap, p.data)
    && (p.capReached <==> 0 < p.read && c.cap == Some(|Kept(c.cap, p.data)|))
    && (c.streamOutput && c.process.Some? ==> DeltasOf(p.deltas, c.process.value, c.cap, p.read, p.data))
    && (!(c.streamOutput && c.process.Some?) ==> p.deltas == [])
    && p.buffer == if c.streamOutput then [] else Kept(c.cap, p.data)
  }

  lemma AllowedExtends(cap: Option<nat>, data: Bytes, chunk: Bytes)
    ensures var len := Allowed(cap, Observed(cap, data), chunk);
            && Kept(cap, data) + chunk[..len] == Kept(cap, data + chunk)
            && (cap.Some? ==> Observed(cap, data) + len == Observed(cap, data + chunk))
  {
    if cap.Some? { CutAtCap(cap.value, data, chunk); } else { assert chunk[..|chunk|] == chunk; }
  }

  /** MAIN: each turn of the loop keeps the pump faithful to the data read so far. */
  lemma TurnFaithful(c: Config, p: Progress, chunk: Bytes, n: nat)
    requires Faithful(c, p) && !p.capReached && 0 < n
    ensures Faithful(c, Turn(c, p, chunk, n))
  {
    AllowedExtends(c.cap, p.data, chunk);
    if c.streamOutput && c.process.Some? {
      var q := Turn(c, p, chunk, n);
      OneMoreDelta(p.deltas, c.process.value, c.cap, p.read, p.data, chunk, q.deltas[|p.deltas|], q.read);
    } else {
      assert p.deltas + [] == p.deltas;
    }
  }

  /**
    The pump. `incoming` is what the process writes, chunk by chunk; `ready(i)` says
    whether chunk `i` is already there when the pump looks for it without waiting, and
    `stop(i)` whether the drain timeout is taken instead of waiting for chunk `i`.
   */
  method Pump(incoming: seq<Bytes>, ready: nat -> bool, stop: nat -> bool, c: Config)
    returns (deltas: seq<Delta>, buffer: Bytes, read: nat)
    ensures read <= |incoming|
    ensures read == |incoming| || stop(read) || (0 < read && c.cap == Some(|Kept(c.cap, Flat(incoming[..read]))|))
    ensures !stop(read) ==> Kept(c.cap, Flat(incoming[..read])) == Kept(c.cap, Flat(incoming))
    ensures c.streamOutput && c.process.Some? ==> DeltasOf(deltas, c.process.value, c.cap, read, Flat(incoming[..read]))
    ensures !(c.streamOutput && c.process.Some?) ==> deltas == []
    ensures buffer == if c.streamOutput then [] else Kept(c.cap, Flat(incoming[..read]))
  {
    deltas, buffer, read := [], [], 0;
    var observed: nat, capReached := 0, false;
    ghost var p := UNREAD;
    assert incoming[..0] == [];
    while !capReached && read < |incoming| && !stop(read)
      invariant read <= |incoming| && Faithful(c, p)
      invariant p == Progress(read, Flat(incoming[..read]), observed, capReached, deltas, buffer)
      decreases |incoming| - read
    {
      var chunk, next := Coalesce(incoming, read, ready);
      TurnFaithful(c, p, chunk, next - read);
      assert deltas + [] == deltas && buffer + [] == buffer;
      p := Turn(c, p, chunk, next - read);
      var len := |chunk|;
      if c.cap.Some? {
        len := Min(SaturatingSub(c.cap.value, observed), |chunk|);
        observed := observed + len;
      }
      capReached := Some(observed) == c.cap;
      if c.streamOutput && c.process.Some? {
        deltas := deltas + [Delta(c.process.value, chunk[..len], capReached)];
      } else if !c.streamOutput {
        buffer := buffer + chunk[..len];
      }
      read := next;
    }
    if !stop(read) { TimingDoesNotMatter(incoming, read, c.cap); }
  }

  lemma {:induction false} FlatOfPrefix(incoming: seq<Bytes>, read: nat)
    requires read <= |incoming|
    ensures Flat(incoming[..read]) <= Flat(incoming)
  {
    var n := |incoming| - 1;
    if read == |incoming| {
      assert incoming[..read] == incoming;
    } else {
      assert incoming[..n][..read] == incoming[..read];
      FlatOfPrefix(incoming[..n], read);
    }
  }

  /** MAIN: unless the drain timeout cut it short, what is kept does not depend on the timing of the chunks. */
  lemma TimingDoesNotMatter(incoming: seq<Bytes>, read: nat, cap: Option<nat>)
    requires read <= |incoming|
    requires read == |incoming| || cap == Some(|Kept(cap, Flat(incoming[..read]))|)
    ensures Kept(cap, Flat(incoming[..read])) == Kept(cap, Flat(incoming))
  {
    FlatOfPrefix(incoming, read);
    assert read == |incoming| ==> incoming[..read] == incoming;
  }
}
