/** The bounded read and the write loop under a file system that moves any number of bytes at a time. */
module AuditIo {
  import opened Wrappers

  newtype byte = x: int | 0 <= x < 256

  const CHUNK: nat := 1024 * 1024

  /** An open regular file; `cuts(k)` is what the system chooses to move in call `k`. */
  class Descriptor {
    const cuts: nat -> int
    var content: seq<byte>
    var offset: nat
    var calls: nat

    constructor (content: seq<byte>, cuts: nat -> int)
      ensures this.content == content && this.cuts == cuts && offset == 0 && calls == 0
    {
      this.content, this.cuts, offset, calls := content, cuts, 0, 0;
    }

    /** os.read: nothing only at the end of the file, otherwise at least a byte and at most `want`. */
    method Read(want: nat) returns (chunk: seq<byte>)
      requires offset <= |content| && want > 0
      modifies this`offset, this`calls
      ensures old(offset) <= offset <= |content| && chunk == content[old(offset)..offset] && |chunk| <= want
      ensures chunk == [] <==> old(offset) == |content|
      ensures calls == old(calls) + 1
    {
      var most := if want < |content| - offset then want else |content| - offset;
      var n := if cuts(calls) < 1 then 1 else cuts(calls);
      n := if n < most then n else most;
      chunk := content[offset..offset + n];
      offset, calls := offset + n, calls + 1;
    }

    /** os.write: at most what it is given; nothing, or less, when the system moves no bytes. */
    method Write(rest: seq<byte>) returns (wrote: int)
      requires rest != []
      modifies this`content, this`calls
      ensures wrote == if cuts(old(calls)) < |rest| then cuts(old(calls)) else |rest|
      ensures content == if wrote > 0 then old(content) + rest[..wrote] else old(content)
      ensures calls == old(calls) + 1
    {
      wrote := if cuts(calls) < |rest| then cuts(calls) else |rest|;
      if wrote > 0 {
        content := content + rest[..wrote];
      }
      calls := calls + 1;
    }
  }

  /**
    Reading a file gives exactly its bytes, however the system cuts the reads, and fails exactly
    when there are more than `limit`; either way at most one byte beyond the limit is asked for.
  */
  method ReadRegular(fd: Descriptor, limit: nat) returns (r: Option<seq<byte>>)
    requires fd.offset <= |fd.content|
    modifies fd`offset, fd`calls
    ensures r == if |fd.content| <= limit then Some(fd.content) else None
    ensures fd.offset <= limit + 1
    ensures r.Some? ==> fd.calls <= old(fd.calls) + |fd.content| + 1
  {
    fd.offset := 0;
    var data: seq<byte> := [];
    while true
      invariant fd.offset <= |fd.content| && data == fd.content[..fd.offset] && |data| <= limit
      invariant fd.calls <= old(fd.calls) + fd.offset
      decreases |fd.content| - fd.offset
    {
      var left := limit + 1 - |data|;
      var chunk := fd.Read(if CHUNK < left then CHUNK else left);
      if chunk == [] {
        assert fd.content[..|fd.content|] == fd.content;
        return Some(data);
      }
      data := data + chunk;
      if |data| > limit {
        return None;
      }
    }
  }

  /** How far the write loop gets from `done`, call by call; None once a write moves nothing. */
  function Progress(cuts: nat -> int, call: nat, done: nat, size: nat): Option<nat>
    requires done <= size
    decreases size - done
  {
    if done == size then Some(call)
    else if cuts(call) <= 0 then None
    else Progress(cuts, call + 1, if done + cuts(call) < size then done + cuts(call) else size, size)
  }

  /** A record is written whole, or what was written is a proper prefix of it and the caller hears of it. */
  method WriteAll(fd: Descriptor, raw: seq<byte>) returns (ok: bool)
    modifies fd`content, fd`calls
    ensures ok <==> Progress(fd.cuts, old(fd.calls), 0, |raw|).Some?
    ensures ok ==> fd.content == old(fd.content) + raw
    ensures !ok ==> exists n :: 0 <= n < |raw| && fd.content == old(fd.content) + raw[..n]
  {
    var offset := 0;
    ghost var start := fd.content;
    while offset < |raw|
      invariant 0 <= offset <= |raw| && fd.content == start + raw[..offset]
      invariant Progress(fd.cuts, fd.calls, offset, |raw|).Some? <==> Progress(fd.cuts, old(fd.calls), 0, |raw|).Some?
    {
      ghost var before := offset;
      var wrote := fd.Write(raw[offset..]);
      if wrote <= 0 {
        return false;
      }
      offset := offset + wrote;
      assert raw[..before] + raw[before..][..wrote] == raw[..offset];
    }
    assert raw[..offset] == raw;
    return true;
  }

  /** Short writes alone never stop it: it fails only at a call that moves nothing. */
  lemma {:induction false} FailsOnlyAtDeadCall(cuts: nat -> int, call: nat, done: nat, size: nat)
    requires done <= size
    ensures Progress(cuts, call, done, size).None? ==> exists k :: call <= k && cuts(k) <= 0
    ensures Progress(cuts, call, done, size).Some? ==> forall k :: call <= k < Progress(cuts, call, done, size).value ==> cuts(k) > 0
    decreases size - done
  {
    if done < size && cuts(call) > 0 {
      FailsOnlyAtDeadCall(cuts, call + 1, if done + cuts(call) < size then done + cuts(call) else size, size);
    }
  }

  /** What one loop writes the other reads back, through any cuts on either side. */
  method WriteThenRead(raw: seq<byte>, cuts: nat -> int, limit: nat) returns (r: Option<seq<byte>>)
    ensures Progress(cuts, 0, 0, |raw|).Some? && |raw| <= limit ==> r == Some(raw)
    ensures Progress(cuts, 0, 0, |raw|).None? && r.Some? ==> r.value < raw
  {
    var fd := new Descriptor([], cuts);
    var ok := WriteAll(fd, raw);
    assert [] + raw == raw && forall n :: 0 <= n < |raw| ==> [] + raw[..n] == raw[..n];
    r := ReadRegular(fd, limit);
  }
}
