/**
 * Uploading a file to object storage (src/imgarchive.rs, `upload_file`,
 * `upload_parts`): one PUT when small, else parts cut by filling a buffer from
 * reads that may come back short.
 */
module Multipart {

  type Byte = bv8

  const SINGLE_PUT_MAX: nat := 100 * 1024 * 1024
  const PART_SIZE: nat := 64 * 1024 * 1024
  const S3_MAX_PARTS: nat := 10_000

  datatype Part = Part(number: nat, body: seq<Byte>)

  /** The object that ends up under the key, or why none does. */
  datatype Outcome = Stored(content: seq<Byte>, parts: seq<Part>) | EmptiedOut | Failed

  // ---- the reference --------------------------------------------------------------

  /** The file cut into pieces of `size`, the last one possibly shorter. */
  function Cut(file: seq<Byte>, size: nat): seq<seq<Byte>>
    requires size > 0
  {
    if file == [] then []
    else if |file| <= size then [file]
    else [file[..size]] + Cut(file[size..], size)
  }

  function Numbered(bodies: seq<seq<Byte>>): seq<Part> {
    seq(|bodies|, i requires 0 <= i < |bodies| => Part(i + 1, bodies[i]))
  }

  /** Completing a multipart upload joins its parts. */
  function Joined(parts: seq<Part>): seq<Byte> {
    if parts == [] then [] else Joined(parts[..|parts| - 1]) + parts[|parts| - 1].body
  }

  function Ceil(n: nat, d: nat): nat
    requires d > 0
  {
    (n + d - 1) / d
  }

  // ---- what the cut is --------------------------------------------------------------

  /** Whatever the file and the part size: the parts are numbered from one without
      gaps, none is empty, all but the last are exactly the part size, there are as
      many as it takes, and together they are the file. */
  lemma {:induction false} CutIsFaithful(file: seq<Byte>, size: nat)
    requires size > 0
    ensures var parts := Numbered(Cut(file, size));
      && Joined(parts) == file
      && |parts| == Ceil(|file|, size)
      && (forall i :: 0 <= i < |parts| ==> parts[i].number == i + 1 && 0 < |parts[i].body| <= size)
      && (forall i :: 0 <= i < |parts| - 1 ==> |parts[i].body| == size)
  {
    CutSizes(file, size);
    CutJoins(file, size);
  }

  lemma {:induction false} CutSizes(file: seq<Byte>, size: nat)
    requires size > 0
    ensures var cut := Cut(file, size);
      && |cut| == Ceil(|file|, size)
      && (forall i :: 0 <= i < |cut| ==> 0 < |cut[i]| <= size)
      && (forall i :: 0 <= i < |cut| - 1 ==> |cut[i]| == size)
  {
    CeilStep(|file|, size);
    if |file| > size {
      CutSizes(file[size..], size);
    }
  }

  lemma CeilStep(n: nat, d: nat)
    requires d > 0
    ensures n == 0 ==> Ceil(n, d) == 0
    ensures 0 < n <= d ==> Ceil(n, d) == 1
    ensures n > d ==> Ceil(n, d) == 1 + Ceil(n - d, d)
  {
    if n > d {
      var q := (n - d + d - 1) / d;
      assert (n + d - 1) / d == q + 1 by {
        var r := (n - 1) % d;
        assert n - 1 == q * d + r;
        assert n + d - 1 == (q + 1) * d + r;
        QuotientIs(n + d - 1, d, q + 1, r);
      }
    } else if n > 0 {
      QuotientIs(n + d - 1, d, 1, n - 1);
    } else {
      QuotientIs(d - 1, d, 0, d - 1);
    }
  }

  lemma QuotientIs(n: nat, d: nat, q: nat, r: nat)
    requires d > 0 && n == q * d + r && r < d
    ensures n / d == q
  {
    var e := n / d - q;
    assert e * d == r - n % d;
    assert e >= 1 ==> e * d >= d;
    assert e <= -1 ==> e * d + d <= 0;
  }

  function Flat(bodies: seq<seq<Byte>>): seq<Byte> { if bodies == [] then [] else bodies[0] + Flat(bodies[1..]) }

  lemma {:induction false} FlatLast(bodies: seq<seq<Byte>>)
    requires bodies != []
    ensures Flat(bodies) == Flat(bodies[..|bodies| - 1]) + bodies[|bodies| - 1]
  {
    var n := |bodies| - 1;
    if n == 0 {
      assert bodies[1..] == [] && bodies[..n] == [];
    } else {
      FlatLast(bodies[1..]);
      assert bodies[1..][..n - 1] == bodies[..n][1..];
    }
  }

  lemma {:induction false} JoinedIsFlat(bodies: seq<seq<Byte>>)
    ensures Joined(Numbered(bodies)) == Flat(bodies)
  {
    if bodies != [] {
      var n := |bodies| - 1;
      assert Numbered(bodies)[..n] == Numbered(bodies[..n]);
      JoinedIsFlat(bodies[..n]);
      FlatLast(bodies);
    }
  }

  lemma {:induction false} CutFlat(file: seq<Byte>, size: nat)
    requires size > 0
    ensures Flat(Cut(file, size)) == file
  {
    if |file| > size {
      CutFlat(file[size..], size);
      assert file == file[..size] + file[size..];
    } else if file != [] {
      assert Flat([file]) == file + Flat([]);
    }
  }

  lemma CutJoins(file: seq<Byte>, size: nat)
    requires size > 0
    ensures Joined(Numbered(Cut(file, size))) == file
  {
    JoinedIsFlat(Cut(file, size));
    CutFlat(file, size);
  }

  /** What is cut off last, cut off first. */
  lemma {:induction false} CutMore(file: seq<Byte>, pos: nat, next: nat, size: nat)
    requires size > 0 && pos % size == 0 && pos < next <= |file|
    requires next == pos + size || (next < pos + size && next == |file|)
    ensures Cut(file[..next], size) == Cut(file[..pos], size) + [file[pos..next]]
  {
    if pos == 0 {
      assert file[..next] == file[pos..next];
    } else {
      assert pos >= size;
      var rest := file[size..];
      assert (pos - size) % size == 0 by { ModBack(pos, size); }
      CutMore(rest, pos - size, next - size, size);
      assert file[..next][..size] == file[..size] && file[..next][size..] == rest[..next - size];
      assert file[pos..next] == rest[pos - size..next - size];
      if pos > size {
        assert file[..pos][..size] == file[..size] && file[..pos][size..] == rest[..pos - size];
      } else {
        assert rest[..0] == [];
        assert file[..pos] == file[..size];
      }
    }
  }

  lemma ModBack(n: nat, d: nat)
    requires d > 0 && n >= d && n % d == 0
    ensures (n - d) % d == 0
  {
    var q := n / d;
    assert n == q * d;
    assert n - d == (q - 1) * d;
    QuotientIs(n - d, d, q - 1, 0);
  }

  lemma ModOn(n: nat, d: nat)
    requires d > 0 && n % d == 0
    ensures (n + d) % d == 0
  {
    assert n + d == (n / d + 1) * d;
    QuotientIs(n + d, d, n / d + 1, 0);
  }

  // ---- the loops -----------------------------------------------------------------------

  /** Fill the buffer from the file at `pos`, however short the reads: full, or to
      the end of the file. Reads may fail unless the environment is `reliable`. */
  method Fill(file: seq<Byte>, pos: nat, buf: array<Byte>, reliable: bool) returns (filled: nat, ok: bool)
    requires pos <= |file|
    modifies buf
    ensures reliable ==> ok
    ensures ok ==> filled <= buf.Length && pos + filled <= |file|
    ensures ok ==> filled == buf.Length || pos + filled == |file|
    ensures ok ==> buf[..filled] == file[pos..pos + filled]
  {
    filled, ok := 0, true;
    while filled < buf.Length
      invariant filled <= buf.Length && pos + filled <= |file|
      invariant buf[..filled] == file[pos..pos + filled]
      decreases buf.Length - filled
    {
      ok :| reliable ==> ok;
      if !ok {
        return;
      }
      // A read gives at least one byte unless the file is at its end.
      var n: nat :| n <= buf.Length - filled && pos + filled + n <= |file|
                    && (n == 0 ==> pos + filled == |file|);
      if n == 0 {
        break;
      }
      ghost var before := buf[..filled];
      forall k | 0 <= k < n {
        buf[filled + k] := file[pos + filled + k];
      }
      assert buf[..filled + n] == before + file[pos + filled..pos + filled + n];
      filled := filled + n;
    }
  }

  /** `upload_parts`: the parts are the reference cut of the file, whatever the
      pattern of short reads. */
  method UploadParts(file: seq<Byte>, size: nat, reliable: bool) returns (r: Outcome)
    ensures reliable ==> !r.Failed?
    ensures r.EmptiedOut? ==> file == [] || size == 0
    ensures r.Stored? ==> file != [] && size > 0 && r.parts == Numbered(Cut(file, size)) && r.content == file
  {
    var parts: seq<Part> := [];
    var buf := new Byte[size];
    var pos := 0;
    while true
      invariant pos <= |file| && (size == 0 ==> pos == 0)
      invariant size > 0 ==> pos % size == 0 && parts == Numbered(Cut(file[..pos], size))
      invariant parts == [] ==> pos == 0
      invariant size == 0 ==> parts == []
      decreases |file| - pos
    {
      var filled, ok := Fill(file, pos, buf, reliable);
      if !ok {
        return Failed;
      }
      if filled == 0 {
        break;
      }
      ok :| reliable ==> ok;
      if !ok {
        return Failed;
      }
      ghost var cut := Cut(file[..pos], size);
      CutMore(file, pos, pos + filled, size);
      ModOn(pos, size);
      parts := parts + [Part(|parts| + 1, buf[..filled])];
      assert parts == Numbered(cut + [file[pos..pos + filled]]);
      pos := pos + filled;
      if filled < buf.Length {
        assert pos == |file|;
        break;
      }
    }
    assert size > 0 ==> pos == |file| && file[..pos] == file;
    if parts == [] {
      return EmptiedOut;
    }
    var ok: bool :| reliable ==> ok;
    if !ok {
      return Failed;
    }
    CutJoins(file, size);
    return Stored(Joined(parts), parts);
  }

  /** `upload_file`: what is stored is the file, by whichever route. */
  method UploadFile(file: seq<Byte>, len: nat, size: nat, singleMax: nat, reliable: bool) returns (r: Outcome)
    ensures reliable ==> r.Stored? || (r.EmptiedOut? && len > singleMax && (file == [] || size == 0))
    ensures r.Stored? ==> r.content == file
    ensures r.Stored? ==> r.parts == if len <= singleMax || size == 0 then [] else Numbered(Cut(file, size))
  {
    if len <= singleMax {
      var ok: bool :| reliable ==> ok;
      return if ok then Stored(file, []) else Failed;
    }
    r := UploadParts(file, size, reliable);
  }

  /** With the standard part size, a 250 GiB image stays within the part limit; so
      does every file of up to 625 GiB, and no larger one. */
  lemma PartLimit(file: seq<Byte>)
    ensures |Cut(file, PART_SIZE)| <= S3_MAX_PARTS <==> |file| <= S3_MAX_PARTS * PART_SIZE
    ensures |file| <= 250 * 1024 * 1024 * 1024 ==> |Cut(file, PART_SIZE)| <= 4000
  {
    CutSizes(file, PART_SIZE);
  }

  /** `upload_path`: with the standard sizes every file up to 625 GiB is stored as it is,
      in no more parts than S3 takes. */
  method UploadPath(file: seq<Byte>, reliable: bool) returns (r: Outcome)
    ensures r.Stored? ==> r.content == file && (r.parts == [] <==> |file| <= 104_857_600)
    ensures r.Stored? && |file| <= S3_MAX_PARTS * PART_SIZE ==> |r.parts| <= S3_MAX_PARTS
    ensures reliable ==> r.Stored?
  {
    PartLimit(file);
    r := UploadFile(file, |file|, PART_SIZE, SINGLE_PUT_MAX, reliable);
  }
}
