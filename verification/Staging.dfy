// Staging an upload: read in chunks, write and hash as they come, and leave no
// partial file behind on any rejection or failure. The hash is any function
// computed byte by byte.
module Staging {
  import opened Options

  type Byte = bv8
  type Path = nat

  datatype StageError = TooLarge | Empty | Interrupted

  // The state of an incremental hash after `bytes`, from state h.
  function Digest<H>(absorb: (H, Byte) -> H, h: H, bytes: seq<Byte>): H
    decreases |bytes|
  {
    if bytes == [] then h else Digest(absorb, absorb(h, bytes[0]), bytes[1..])
  }

  // Hashing chunk by chunk is hashing the concatenation.
  lemma {:induction false} DigestConcat<H>(absorb: (H, Byte) -> H, h: H, a: seq<Byte>, b: seq<Byte>)
    ensures Digest(absorb, h, a + b) == Digest(absorb, Digest(absorb, h, a), b)
    decreases |a|
  {
    if a == [] {
      assert a + b == b;
    } else {
      DigestConcat(absorb, absorb(h, a[0]), a[1..], b);
      assert (a + b)[1..] == a[1..] + b;
    }
  }

  // The states an incremental hash goes through, byte by byte.
  ghost predicate IsHash<H(!new)>(absorb: (H, Byte) -> H, h: H, bytes: seq<Byte>, sha256: H) {
    exists states: seq<H> :: Steps(absorb, h, bytes, states) && states[|bytes|] == sha256
  }

  ghost predicate Steps<H(!new)>(absorb: (H, Byte) -> H, h: H, bytes: seq<Byte>, states: seq<H>) {
    && |states| == |bytes| + 1 && states[0] == h
    && forall i :: 0 <= i < |bytes| ==> states[i + 1] == absorb(states[i], bytes[i])
  }

  lemma {:induction false} DigestSteps<H(!new)>(absorb: (H, Byte) -> H, h: H, bytes: seq<Byte>) returns (states: seq<H>)
    ensures Steps(absorb, h, bytes, states) && states[|bytes|] == Digest(absorb, h, bytes)
    decreases |bytes|
  {
    if bytes == [] {
      states := [h];
    } else {
      var rest := DigestSteps(absorb, absorb(h, bytes[0]), bytes[1..]);
      states := [h] + rest;
      forall i | 0 <= i < |bytes| ensures states[i + 1] == absorb(states[i], bytes[i]) {
        if i > 0 {
          assert rest[i] == absorb(rest[i - 1], bytes[1..][i - 1]);
        }
      }
    }
  }

  // A hash that only collects what it is fed gives the content back: every byte
  // counts, in order.
  lemma {:induction false} CollectingGivesContent(h: seq<Byte>, bytes: seq<Byte>)
    ensures Digest((s: seq<Byte>, b: Byte) => s + [b], h, bytes) == h + bytes
    decreases |bytes|
  {
    if bytes != [] {
      CollectingGivesContent(h + [bytes[0]], bytes[1..]);
      assert h + [bytes[0]] + bytes[1..] == h + bytes;
    } else {
      assert h + bytes == h;
    }
  }

  class UploadFile {
    const content: seq<Byte>
    var position: nat

    constructor (content: seq<Byte>)
      ensures this.content == content && position == 0
    {
      this.content, position := content, 0;
    }

    // At most `size` bytes; none only at the end, or when none are asked for.
    method Read(size: nat) returns (chunk: seq<Byte>)
      requires position <= |content|
      modifies this
      ensures old(position) <= position <= |content| && chunk == content[old(position)..position]
      ensures |chunk| <= size && (chunk == [] <==> size == 0 || old(position) == |content|)
    {
      var rest := |content| - position;
      var most := if rest < size then rest else size;
      var n: nat := 0;
      if most > 0 {
        n :| 1 <= n <= most;
      }
      chunk := content[position..position + n];
      position := position + n;
    }
  }

  class Disk {
    var parts: map<Path, seq<Byte>>
    var files: map<Path, seq<Byte>>

    constructor ()
      ensures parts == map[] && files == map[]
    {
      parts, files := map[], map[];
    }
  }

  class ChunkSink<H(!new)> {
    const disk: Disk
    const path: Path
    const absorb: (H, Byte) -> H
    const initial: H
    var hash: H
    var size: nat

    constructor (disk: Disk, path: Path, absorb: (H, Byte) -> H, initial: H)
      modifies disk
      ensures this.disk == disk && this.path == path && this.absorb == absorb && this.initial == initial
      ensures Holds([]) && disk.parts == old(disk.parts)[path := []] && disk.files == old(disk.files)
    {
      this.disk, this.path, this.absorb, this.initial := disk, path, absorb, initial;
      hash, size := initial, 0;
      new;
      disk.parts := disk.parts[path := []];
    }

    // The part file, the size and the hash all tell the same bytes.
    ghost predicate Holds(bytes: seq<Byte>)
      reads this, disk
    {
      && path in disk.parts && disk.parts[path] == bytes
      && size == |bytes|
      && hash == Digest(absorb, initial, bytes)
    }

    method Write(chunk: seq<Byte>, ghost before: seq<Byte>)
      requires Holds(before)
      modifies this, disk`parts
      ensures Holds(before + chunk)
      ensures disk.parts == old(disk.parts)[path := before + chunk]
    {
      disk.parts := disk.parts[path := disk.parts[path] + chunk];
      DigestConcat(absorb, initial, before, chunk);
      Absorb(chunk);
      size := size + |chunk|;
    }

    method Absorb(chunk: seq<Byte>)
      modifies this`hash
      ensures hash == Digest(absorb, old(hash), chunk)
    {
      var i := 0;
      while i < |chunk|
        invariant 0 <= i <= |chunk|
        invariant Digest(absorb, hash, chunk[i..]) == Digest(absorb, old(hash), chunk)
      {
        assert chunk[i..][1..] == chunk[i + 1..];
        hash := absorb(hash, chunk[i]);
        i := i + 1;
      }
      assert chunk[i..] == [];
    }

    method Abort()
      modifies disk`parts
      ensures disk.parts == old(disk.parts) - {path}
    {
      disk.parts := disk.parts - {path};
    }
  }

  class StagedUpload<H(!new)> {
    const disk: Disk
    const path: Path
    const sha256: H
    const size: nat

    constructor (disk: Disk, path: Path, sha256: H, size: nat)
      ensures this.disk == disk && this.path == path && this.sha256 == sha256 && this.size == size
    {
      this.disk, this.path, this.sha256, this.size := disk, path, sha256, size;
    }

    method Commit() returns (final: Path)
      requires path in disk.parts
      modifies disk
      ensures final == path && disk.files == old(disk.files)[path := old(disk.parts)[path]]
      ensures disk.parts == old(disk.parts) - {path}
    {
      disk.files := disk.files[path := disk.parts[path]];
      disk.parts := disk.parts - {path};
      final := path;
    }

    // Idempotent, and harmless after a commit.
    method Discard()
      modifies disk`parts
      ensures disk.parts == old(disk.parts) - {path}
      ensures path !in old(disk.parts) ==> disk.parts == old(disk.parts)
    {
      disk.parts := disk.parts - {path};
    }
  }

  // What staging amounts to, with the whole file in hand.
  function Verdict(content: seq<Byte>, maxSize: nat, chunkSize: nat): Result<nat, StageError> {
    if chunkSize == 0 || content == [] then Err(Empty)
    else if |content| > maxSize then Err(TooLarge)
    else Ok(|content|)
  }

  // `interrupted` says after how many reads, if ever, an I/O error or a
  // cancellation strikes.
  method StageUpload<H(!new)>(
    disk: Disk, upload: UploadFile, path: Path, maxSize: nat, chunkSize: nat,
    absorb: (H, Byte) -> H, initial: H, interrupted: Option<nat>)
    returns (staged: Result<StagedUpload<H>, StageError>)
    requires upload.position == 0
    requires path !in disk.parts
    modifies disk, upload
    ensures disk.files == old(disk.files)
    ensures staged.Ok? ==>
      && Verdict(upload.content, maxSize, chunkSize) == Ok(staged.value.size)
      && 0 < staged.value.size <= maxSize
      && staged.value.disk == disk && staged.value.path == path && fresh(staged.value)
      && staged.value.sha256 == Digest(absorb, initial, upload.content)
      && IsHash(absorb, initial, upload.content, staged.value.sha256)
      && staged.value.size == |upload.content|
      && disk.parts == old(disk.parts)[path := upload.content]
    ensures staged.Err? ==> disk.parts == old(disk.parts)
    ensures staged.Err? && staged.error != Interrupted ==> Verdict(upload.content, maxSize, chunkSize) == Err(staged.error)
    ensures interrupted == Some(0) ==> staged == Err(Interrupted)
    ensures interrupted == None || interrupted.value > |upload.content| ==>
      && (staged.Ok? <==> chunkSize > 0 && 0 < |upload.content| <= maxSize)
      && (staged == Err(TooLarge) <==> chunkSize > 0 && |upload.content| > maxSize)
      && (staged == Err(Empty) <==> chunkSize == 0 || upload.content == [])
  {
    var sink := new ChunkSink(disk, path, absorb, initial);
    var count := 0;
    while true
      invariant sink.disk == disk && sink.path == path && sink.absorb == absorb && sink.initial == initial
      invariant upload.position <= |upload.content| && sink.Holds(upload.content[..upload.position])
      invariant disk.files == old(disk.files) && disk.parts == old(disk.parts)[path := upload.content[..upload.position]]
      invariant sink.size <= maxSize
      invariant chunkSize == 0 ==> upload.position == 0
      invariant count <= upload.position && (interrupted == Some(0) ==> count == 0)
      decreases |upload.content| - upload.position
    {
      if interrupted == Some(count) {
        sink.Abort();
        assert disk.parts == old(disk.parts);
        return Err(Interrupted);
      }
      count := count + 1;
      ghost var before := upload.content[..upload.position];
      var chunk := upload.Read(chunkSize);
      if chunk == [] {
        break;
      }
      assert before + chunk == upload.content[..upload.position];
      if sink.size + |chunk| > maxSize {
        sink.Abort();
        assert disk.parts == old(disk.parts);
        return Err(TooLarge);
      }
      sink.Write(chunk, before);
    }
    if sink.size == 0 {
      sink.Abort();
      assert disk.parts == old(disk.parts);
      return Err(Empty);
    }
    assert upload.content[..upload.position] == upload.content;
    ghost var states := DigestSteps(absorb, initial, upload.content);
    var result := new StagedUpload(disk, path, sink.hash, sink.size);
    staged := Ok(result);
  }
}
