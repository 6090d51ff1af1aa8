/** src/anycorn/sendfile.py: the two ways to transmit a window of a file, which send the same bytes
    however the kernel splits them up. */
module SendFiles {
  import opened Common

  const READ_CHUNK := 64 * 1024
  const MAX_SENDFILE_CHUNK := 0x4000_0000

  /** What the kernel makes of a call: EAGAIN, or some of the bytes asked for. */
  datatype Outcome = Again | Partial(most: nat)

  /** The bytes from offset on, as many as asked for and as there are; all of them for None. */
  function Window(file: Bytes, offset: nat, count: Option<int>): (w: Bytes)
    ensures offset <= |file| && count.None? ==> w == file[offset..]
    ensures offset <= |file| && count.Some? && 0 <= count.value <= |file| - offset ==>
      w == file[offset..offset + count.value]
    ensures count.Some? ==> |w| == Max(0, Min(count.value, |file| - offset))
  {
    if offset > |file| then []
    else if count.None? then file[offset..]
    else file[offset..offset + Max(0, Min(count.value, |file| - offset))]
  }

  /** At least one byte of a non-empty rest, at most what was asked for. */
  function Moved(asked: nat, rest: nat, o: Outcome): nat
    requires o.Partial?
  {
    if Min(asked, rest) == 0 then 0 else Max(1, Min(o.most, Min(asked, rest)))
  }

  /** The bytes from position on that are still to go. */
  function Left(file: Bytes, offset: nat, count: Option<int>, position: nat): nat {
    Max(0, (if count.None? then |file| else Min(|file|, offset + count.value)) - position)
  }

  function Between(file: Bytes, a: nat, b: nat): Bytes { if a <= b <= |file| then file[a..b] else [] }

  lemma BetweenGrows(file: Bytes, a: nat, b: nat, moved: nat)
    requires a <= b && b + moved <= |file|
    ensures Between(file, a, b) + file[b..b + moved] == Between(file, a, b + moved)
  {
  }

  /** The window is complete once everything asked for, or everything there is, has gone. */
  lemma Complete(file: Bytes, offset: nat, count: Option<int>, position: nat)
    requires offset <= position && (position == offset || position <= |file|)
    requires count.Some? ==> position - offset <= Max(0, count.value)
    requires position >= |file| || (count.Some? && position - offset == Max(0, count.value))
    ensures Between(file, offset, position) == Window(file, offset, count)
  {
  }

  /** `sendfile` over a socket that answers with EAGAIN and partial sends in the given pattern and
      then takes whatever it is offered; `calls` are the sizes it was asked for. */
  method SendFile(file: Bytes, start: nat, count: Option<int>, kernel: seq<Outcome>)
    returns (wire: Bytes, total: nat, calls: seq<nat>)
    ensures wire == Window(file, start, count) && total == |wire|
    ensures forall i :: 0 <= i < |calls| ==> 0 < calls[i] <= MAX_SENDFILE_CHUNK
  {
    wire, total, calls := [], 0, [];
    var offset, n := start, 0;
    while count.None? || total < count.value
      invariant 0 <= n <= |kernel| && offset == start + total
      invariant wire == Between(file, start, offset) && (total == 0 || offset <= |file|)
      invariant total == |wire| && (count.Some? ==> total <= Max(0, count.value))
      invariant forall i :: 0 <= i < |calls| ==> 0 < calls[i] <= MAX_SENDFILE_CHUNK
      decreases |kernel| - n, Left(file, start, count, offset)
    {
      var asked := if count.None? then MAX_SENDFILE_CHUNK else Min(MAX_SENDFILE_CHUNK, count.value - total);
      calls := calls + [asked];
      var outcome := if n < |kernel| then kernel[n] else Partial(asked);
      if n < |kernel| {
        n := n + 1;
      }
      if outcome.Again? {
        continue;
      }
      var sent := Moved(asked, Max(0, |file| - offset), outcome);
      if sent == 0 {
        break;
      }
      BetweenGrows(file, start, offset, sent);
      wire := wire + file[offset..offset + sent];
      offset := offset + sent;
      total := total + sent;
    }
    Complete(file, start, count, offset);
  }

  /** `read_file_chunks`, whose reads may come back short in the given pattern. */
  method ReadFileChunks(file: Bytes, offset: nat, count: int, short: seq<nat>) returns (chunks: seq<Bytes>)
    ensures Concat(chunks) == Window(file, offset, Some(count))
    ensures forall i :: 0 <= i < |chunks| ==> 0 < |chunks[i]| <= READ_CHUNK
  {
    chunks := [];
    var remaining, position, n := count, offset, 0;
    while remaining > 0
      invariant offset <= position <= offset + Max(0, count) && remaining == count - (position - offset)
      invariant position == offset || position <= |file|
      invariant Concat(chunks) == Between(file, offset, position)
      invariant forall i :: 0 <= i < |chunks| ==> 0 < |chunks[i]| <= READ_CHUNK
    {
      var asked := Min(READ_CHUNK, remaining);
      var got := Moved(asked, Max(0, |file| - position), Partial(if n < |short| then short[n] else asked));
      n := n + 1;
      if got == 0 {
        break;
      }
      var data := file[position..position + got];
      ConcatAppend(chunks, data);
      BetweenGrows(file, offset, position, got);
      chunks := chunks + [data];
      position := position + got;
      remaining := remaining - got;
    }
    Complete(file, offset, Some(count), position);
  }
}
