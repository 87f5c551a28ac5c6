/** The bounded reader of flowdocs/core/custody_audit.py and the reads built on it. */
module ArchiveReader {
  import opened Common
  import opened Tar

  const READ_CHUNK: nat := 1024 * 1024

  /** The stream content is what can be read of the file, decompressed if need be; a broken
      stream raises where its content ends.  The clock may run out before any read. */
  class BoundedArchiveReader {
    const content: Bytes
    const broken: bool
    const physicalBytes: nat
    const compressed: bool
    const maxReadBytes: int
    const limitReason: Reason
    const maxRatio: nat
    var readBytes: nat

    ghost predicate Valid() reads this { readBytes <= |content| }

    /** Reading n bytes stays within every limit. */
    predicate Fits(n: nat) {
      n <= maxReadBytes && (compressed ==> n <= (if physicalBytes > 1 then physicalBytes else 1) * maxRatio)
    }

    constructor (content: Bytes, broken: bool, physicalBytes: nat, compressed: bool, maxReadBytes: int,
                 limitReason: Reason, maxRatio: nat)
      ensures Valid() && readBytes == 0
      ensures this.content == content && this.broken == broken && this.physicalBytes == physicalBytes
      ensures this.compressed == compressed && this.maxReadBytes == maxReadBytes && this.maxRatio == maxRatio
    {
      this.content, this.broken, this.physicalBytes, this.compressed := content, broken, physicalBytes, compressed;
      this.maxReadBytes, this.limitReason, this.maxRatio, readBytes := maxReadBytes, limitReason, maxRatio, 0;
    }

    /** Nothing but the clock can stop a reader that has got to n. */
    predicate CanReach(n: nat) { n <= |content| && Fits(n) }

    method Read(size: nat) returns (r: Result<Bytes, Reason>)
      requires Valid()
      modifies this
      ensures Valid() && old(readBytes) <= readBytes <= old(readBytes) + size
      ensures r.Success? ==>
                && readBytes == Min(old(readBytes) + size, |content|) && Fits(readBytes)
                && r.value == content[old(readBytes)..readBytes]
                && (broken ==> old(readBytes) + size <= |content|)
      ensures r.Failure? && CanReach(old(readBytes) + size) ==> r.error == TimeLimit
      ensures r.Failure? && !broken && Fits(|content|) ==> r.error == TimeLimit
    {
      var late: bool := *;
      if late { return Failure(TimeLimit); }
      if broken && readBytes + size > |content| { return Failure(StreamBroken); }
      var upto := Min(readBytes + size, |content|);
      var data := content[readBytes..upto];
      readBytes := readBytes + |data|;
      if readBytes > maxReadBytes { return Failure(limitReason); }
      if !Fits(readBytes) { return Failure(RatioExceeded); }
      r := Success(data);
    }

    /** read_exact: chunk by chunk. */
    method ReadExact(size: nat) returns (r: Result<Bytes, Reason>)
      requires Valid()
      modifies this
      ensures Valid() && old(readBytes) <= readBytes <= old(readBytes) + size
      ensures r.Success? ==> readBytes == old(readBytes) + size && r.value == content[old(readBytes)..readBytes]
      ensures r.Success? && size > 0 ==> Fits(readBytes)
      ensures r.Failure? && CanReach(old(readBytes) + size) ==> r.error == TimeLimit
      ensures r.Failure? ==> Overruns(old(readBytes), size)
    {
      var data: Bytes := [];
      while |data| < size
        invariant Valid() && |data| <= size && readBytes == old(readBytes) + |data|
        invariant data == content[old(readBytes)..readBytes]
        invariant |data| > 0 ==> Fits(readBytes)
        decreases size - |data|
      {
        ghost var n := readBytes;
        assert n == old(readBytes) || Fits(n);
        var chunk := Read(Min(READ_CHUNK, size - |data|));
        if chunk.Failure? { return chunk; }
        if chunk.value == [] { return Failure(MemberTruncated); }
        data := data + chunk.value;
      }
      r := Success(data);
    }

    /** A failed read has gone at most one chunk past the place where it started or where the
        read limit still held. */
    predicate Overruns(from: nat, size: nat)
      reads this`readBytes
    {
      readBytes <= from + Min(READ_CHUNK, size) || (maxReadBytes >= 0 && readBytes <= maxReadBytes + READ_CHUNK)
    }

    method Discard(size: nat) returns (r: Result<(), Reason>)
      requires Valid()
      modifies this
      ensures Valid() && old(readBytes) <= readBytes <= old(readBytes) + size
      ensures r.Success? ==> readBytes == old(readBytes) + size
      ensures r.Success? && size > 0 ==> Fits(readBytes)
      ensures r.Failure? && CanReach(old(readBytes) + size) ==> r.error == TimeLimit
      ensures r.Failure? ==> Overruns(old(readBytes), size)
    {
      var remaining := size;
      while remaining > 0
        invariant Valid() && 0 <= remaining <= size && readBytes == old(readBytes) + size - remaining
        invariant remaining < size ==> Fits(readBytes)
      {
        ghost var n := readBytes;
        assert n == old(readBytes) || Fits(n);
        var chunk := Read(Min(READ_CHUNK, remaining));
        if chunk.Failure? { return Failure(chunk.error); }
        if chunk.value == [] { return Failure(MemberTruncated); }
        remaining := remaining - |chunk.value|;
      }
      r := Success(());
    }

    /** _hash_member: what the running digest has taken in, and whether it starts as a PDF. */
    method HashMember(size: nat) returns (r: Result<(Bytes, bool), Reason>)
      requires Valid()
      modifies this
      ensures Valid() && old(readBytes) <= readBytes <= old(readBytes) + size
      ensures r.Success? ==>
                && readBytes == old(readBytes) + size
                && r.value.0 == content[old(readBytes)..readBytes] && r.value.1 == IsPdf(r.value.0)
      ensures r.Success? && size > 0 ==> Fits(readBytes)
      ensures r.Failure? && CanReach(old(readBytes) + size) ==> r.error == TimeLimit
      ensures r.Failure? ==> Overruns(old(readBytes), size)
    {
      var hashed: Bytes, first: Bytes, remaining := [], [], size;
      while remaining > 0
        invariant Valid() && 0 <= remaining <= size && readBytes == old(readBytes) + size - remaining
        invariant hashed == content[old(readBytes)..readBytes]
        invariant remaining < size ==> Fits(readBytes) && first == hashed[..Min(8, |hashed|)]
        invariant remaining < size ==> |hashed| >= 8 || remaining == 0 || readBytes == |content|
        invariant remaining == size ==> first == []
      {
        ghost var n := readBytes;
        assert n == old(readBytes) || Fits(n);
        var chunk := Read(Min(READ_CHUNK, remaining));
        if chunk.Failure? { return Failure(chunk.error); }
        if chunk.value == [] { return Failure(MemberTruncated); }
        if first == [] { first := chunk.value[..Min(8, |chunk.value|)]; }
        hashed := hashed + chunk.value;
        remaining := remaining - |chunk.value|;
      }
      r := Success((hashed, PDF <= first));
    }
  }

  const PDF: Bytes := [37, 80, 68, 70, 45]

  predicate IsPdf(data: Bytes) { PDF <= data }
}
