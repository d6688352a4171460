/**
  rebuildOGG of src/core/dl/spotify_dl.go: nine patches written into a file at fixed offsets, in the
  arbitrary order in which Go walks a map. Ogg pages are laid out as in section 6 of RFC 3533; the fields
  after the first page's header are those of the Vorbis identification header (section 4.2.2 of the Vorbis I
  specification).
*/
module OggPatch {
  import opened Common

  type Byte = b: int | 0 <= b < 256

  function Zeros(n: nat): (z: seq<Byte>)
    ensures |z| == n && forall i | 0 <= i < n :: z[i] == 0
  {
    seq(n, _ => 0)
  }

  const OGGS: seq<Byte> := [0x4f, 0x67, 0x67, 0x53]                                  // "OggS"
  const ID_HEADER: seq<Byte> := [0x01, 0x1E, 0x01, 0x76, 0x6f, 0x72, 0x62, 0x69, 0x73]   // 1 segment of 30 bytes, 1 "vorbis"

  /** The map of patches: offset |-> bytes. */
  const PATCHES: map<nat, seq<Byte>> := map[
    0 := OGGS,
    6 := Zeros(10),
    26 := ID_HEADER,
    39 := [0x02],
    40 := [0x44, 0xAC, 0x00, 0x00],
    48 := [0x00, 0xE2, 0x04, 0x00],
    56 := [0xB8, 0x01],
    58 := OGGS,
    62 := Zeros(10)
  ]

  /** What File.WriteAt leaves: bytes between the old end and the offset read as zero. */
  function Written(f: seq<Byte>, off: nat, data: seq<Byte>): (r: seq<Byte>)
    ensures |r| == if data == [] then |f| else Max(|f|, off + |data|)
    ensures forall i | 0 <= i < |r| ::
              r[i] == if off <= i < off + |data| then data[i - off] else if i < |f| then f[i] else 0
  {
    if data == [] then f
    else
      var base := if |f| < off + |data| then f + Zeros(off + |data| - |f|) else f;
      base[..off] + data + base[off + |data|..]
  }

  /** Offset `off`'s patch covers byte `i`. */
  predicate Covers(off: nat, i: int) {
    off in PATCHES && off <= i < off + |PATCHES[off]|
  }

  // ----- the patched file, byte by byte -----

  /** Where the last patch ends. */
  const PATCHED_LENGTH := 72

  lemma PatchesFit(off: nat, i: int)
    ensures Covers(off, i) ==> 0 <= i < PATCHED_LENGTH
    ensures Covers(62, PATCHED_LENGTH - 1)
  {
  }

  /** No two patches write the same byte. */
  lemma PatchesAreDisjoint(off: nat, off': nat, i: int)
    requires Covers(off, i) && Covers(off', i)
    ensures off == off'
  {
  }

  /** After the patches in `done`: their bytes are in, every other byte is as it was, a gap reads as zeros. */
  ghost predicate PatchedBy(f: seq<Byte>, r: seq<Byte>, done: set<nat>) {
    && |f| <= |r| <= Max(|f|, PATCHED_LENGTH)
    && (62 in done ==> |r| == Max(|f|, PATCHED_LENGTH))
    && (forall off, i | off in done && Covers(off, i) :: i < |r| && r[i] == PATCHES[off][i - off])
    && (forall i | 0 <= i < |r| && (forall off | off in done :: !Covers(off, i)) :: r[i] == OldByte(f, i))
  }

  function OldByte(f: seq<Byte>, i: nat): Byte {
    if i < |f| then f[i] else 0
  }

  /** The byte at position `i` of the result: that of the patch there, if there is one. */
  ghost function ByteAt(f: seq<Byte>, i: nat): (b: Byte)
    ensures forall off | Covers(off, i) :: b == PATCHES[off][i - off]
    ensures (forall off | off in PATCHES :: !Covers(off, i)) ==> b == OldByte(f, i)
  {
    if off: nat :| Covers(off, i) then
      assert forall off' | Covers(off', i) :: off' == off by {
        forall off' | Covers(off', i) ensures off' == off { PatchesAreDisjoint(off, off', i); }
      }
      PATCHES[off][i - off]
    else OldByte(f, i)
  }

  /** The patched file: all patches made, and nothing else. */
  ghost function Patched(f: seq<Byte>): (r: seq<Byte>)
    ensures PatchedBy(f, r, PATCHES.Keys)
  {
    var r := seq(Max(|f|, PATCHED_LENGTH), i requires 0 <= i => ByteAt(f, i));
    assert forall off, i | Covers(off, i) :: 0 <= i < |r| && r[i] == PATCHES[off][i - off] by {
      forall off, i | Covers(off, i) ensures 0 <= i < |r| { PatchesFit(off, i); }
    }
    r
  }

  lemma OnePatchMore(f: seq<Byte>, r: seq<Byte>, done: set<nat>, off: nat)
    requires PatchedBy(f, r, done) && off in PATCHES
    ensures PatchedBy(f, Written(r, off, PATCHES[off]), done + {off})
  {
    var w := Written(r, off, PATCHES[off]);
    PatchesFit(off, off + |PATCHES[off]| - 1);
    forall o, i | o in done + {off} && Covers(o, i) ensures i < |w| && w[i] == PATCHES[o][i - o] {
      if Covers(off, i) {
        PatchesAreDisjoint(o, off, i);
      }
    }
    forall i | 0 <= i < |w| && (forall o | o in done + {off} :: !Covers(o, i)) ensures w[i] == OldByte(f, i) {
      assert !Covers(off, i);
    }
  }

  /** That determines the file. */
  lemma AllPatchesDone(f: seq<Byte>, r: seq<Byte>)
    requires PatchedBy(f, r, PATCHES.Keys)
    ensures r == Patched(f)
  {
    var p := Patched(f);
    forall i | 0 <= i < |r| ensures r[i] == p[i] {
      if off: nat :| Covers(off, i) {
        assert r[i] == PATCHES[off][i - off];
      } else {
        assert r[i] == OldByte(f, i);
      }
    }
  }

  // ----- the loop over the map -----

  class File {
    var bytes: seq<Byte>

    constructor (bytes: seq<Byte>)
      ensures this.bytes == bytes
    {
      this.bytes := bytes;
    }

    method WriteAt(offset: nat, data: seq<Byte>)
      modifies this
      ensures bytes == Written(old(bytes), offset, data)
    {
      bytes := Written(bytes, offset, data);
    }
  }

  /**
    rebuildOGG: whatever order the map is walked in, the file ends up as Patched says; when a write fails
    (`fails`), the patches made so far are in and nothing else has changed.
  */
  method RebuildOgg(file: File, fails: nat -> bool) returns (ok: bool)
    modifies file
    ensures ok ==> file.bytes == Patched(old(file.bytes))
    ensures exists done :: done <= PATCHES.Keys && PatchedBy(old(file.bytes), file.bytes, done)
    ensures (forall off | off in PATCHES :: !fails(off)) ==> ok
  {
    var rest := PATCHES.Keys;
    ghost var done: set<nat> := {};
    while rest != {}
      invariant rest <= PATCHES.Keys && done == PATCHES.Keys - rest
      invariant PatchedBy(old(file.bytes), file.bytes, done)
      decreases rest
    {
      var offset := PickAny(rest);
      if fails(offset) {
        return false;
      }
      OnePatchMore(old(file.bytes), file.bytes, done, offset);
      file.WriteAt(offset, PATCHES[offset]);
      rest, done := rest - {offset}, done + {offset};
    }
    assert done == PATCHES.Keys;
    AllPatchesDone(old(file.bytes), file.bytes);
    ok := true;
  }

  /** Patching twice changes nothing more. */
  lemma PatchingIsIdempotent(f: seq<Byte>)
    ensures Patched(Patched(f)) == Patched(f)
  {
    var r := Patched(f);
    assert PatchedBy(r, r, PATCHES.Keys);
    AllPatchesDone(r, r);
  }

  /** The patches of `order`, written one after the other. */
  function WriteInOrder(f: seq<Byte>, order: seq<nat>): seq<Byte>
    requires forall off | off in order :: off in PATCHES
  {
    if order == [] then f
    else var k := |order| - 1; Written(WriteInOrder(f, order[..k]), order[k], PATCHES[order[k]])
  }

  function Offsets(order: seq<nat>): set<nat> {
    set off | off in order
  }

  lemma OffsetsSnoc(order: seq<nat>)
    requires order != []
    ensures var k := |order| - 1; Offsets(order) == Offsets(order[..k]) + {order[k]}
  {
    assert order == order[..|order| - 1] + [order[|order| - 1]];
  }

  lemma {:induction false} WriteInOrderPatches(f: seq<Byte>, order: seq<nat>)
    requires forall off | off in order :: off in PATCHES
    ensures PatchedBy(f, WriteInOrder(f, order), Offsets(order))
  {
    if order != [] {
      var k := |order| - 1;
      WriteInOrderPatches(f, order[..k]);
      OnePatchMore(f, WriteInOrder(f, order[..k]), Offsets(order[..k]), order[k]);
      OffsetsSnoc(order);
    } else {
      assert Offsets(order) == {};
    }
  }

  /** Every order that makes each patch at least once gives the same file. */
  lemma OrderDoesNotMatter(f: seq<Byte>, order: seq<nat>)
    requires forall off :: off in order <==> off in PATCHES
    ensures WriteInOrder(f, order) == Patched(f)
  {
    WriteInOrderPatches(f, order);
    assert Offsets(order) == PATCHES.Keys;
    AllPatchesDone(f, WriteInOrder(f, order));
  }

  // ----- what the patched header says -----

  function Sum(s: seq<Byte>): nat {
    if s == [] then 0 else s[0] + Sum(s[1..])
  }

  /** Where the page starting at `start` ends: 27 bytes of header, the segment table, the segments (RFC 3533, 6). */
  function PageEnd(f: seq<Byte>, start: nat): Option<nat> {
    if start + 27 > |f| then None
    else
      var segments := f[start + 26];
      if start + 27 + segments > |f| then None
      else Some(start + 27 + segments + Sum(f[start + 27..start + 27 + segments]))
  }

  function LittleEndian(s: seq<Byte>): nat {
    if s == [] then 0 else s[0] + 256 * LittleEndian(s[1..])
  }

  /** A patch, read back. */
  lemma ReadBack(f: seq<Byte>, off: nat, data: seq<Byte>)
    requires off in PATCHES && PATCHES[off] == data
    ensures off + |data| <= |Patched(f)| && Patched(f)[off..off + |data|] == data
  {
    var r := Patched(f);
    PatchesFit(off, off + |data| - 1);
    forall i | off <= i < off + |data| ensures r[i] == data[i - off] {
      assert Covers(off, i);
    }
  }

  /** A page whose header says it has one segment ends after that. */
  lemma OneSegment(r: seq<Byte>, header: seq<Byte>)
    requires |r| >= 35 && r[26..35] == header && header[0] == 1
    ensures PageEnd(r, 0) == Some(28 + header[1] as int)
  {
    assert r[26] == r[26..35][0] && r[27] == r[26..35][1];
    var table := r[27..28];
    assert table[1..] == [] && Sum(table) == table[0];
  }

  /**
    The first page starts with the capture pattern and, by its own segment table, ends at offset 58, where the
    second page's capture pattern is.
  */
  lemma FirstPageEndsAtTheSecond(f: seq<Byte>)
    ensures var r := Patched(f); r[0..4] == OGGS && PageEnd(r, 0) == Some(58) && r[58..62] == OGGS
  {
    ReadBack(f, 0, OGGS);
    ReadBack(f, 26, ID_HEADER);
    ReadBack(f, 58, OGGS);
    OneSegment(Patched(f), ID_HEADER);
  }

  /** That page holds a Vorbis identification header for 2 channels at 44100 Hz, framing bit and all. */
  lemma FirstPageIdentifiesVorbis(f: seq<Byte>)
    ensures var r := Patched(f);
            && r[28..35] == [0x01, 0x76, 0x6f, 0x72, 0x62, 0x69, 0x73]
            && r[39..40] == [2] && LittleEndian(r[40..44]) == 44100 && LittleEndian(r[48..52]) == 320000
            && r[56..58] == [0xB8, 0x01]
  {
    ReadBack(f, 26, ID_HEADER);
    assert Patched(f)[28..35] == Patched(f)[26..35][2..];
    ReadBack(f, 39, [2]);
    ReadBack(f, 40, [0x44, 0xAC, 0x00, 0x00]);
    ReadBack(f, 48, [0x00, 0xE2, 0x04, 0x00]);
    ReadBack(f, 56, [0xB8, 0x01]);
    LittleEndian4([0x44, 0xAC, 0x00, 0x00]);
    LittleEndian4([0x00, 0xE2, 0x04, 0x00]);
  }

  /** Little-endian fields of zeros are zero. */
  lemma {:induction false} ZeroField(n: nat)
    ensures LittleEndian(Zeros(n)) == 0
  {
    if n > 0 {
      assert Zeros(n)[1..] == Zeros(n - 1);
      ZeroField(n - 1);
    }
  }

  /** Fields within a patch of zeros. */
  lemma ZerosWithin(f: seq<Byte>, off: nat, n: nat, from: nat, to: nat)
    requires off in PATCHES && PATCHES[off] == Zeros(n) && off <= from <= to <= off + n
    ensures to <= |Patched(f)| && Patched(f)[from..to] == Zeros(to - from)
  {
    var r := Patched(f);
    ReadBack(f, off, Zeros(n));
    forall i | from <= i < to ensures r[i] == 0 {
      assert r[off..off + n][i - off] == r[i];
    }
  }

  /**
    Both pages start their stream: their granule positions (8 bytes at 6 from the page) are 0, the first page's
    serial number has its low half 0, and the second page has version 0 and no header flags.
  */
  lemma PagesStartAtZero(f: seq<Byte>)
    ensures var r := Patched(f);
            && LittleEndian(r[6..14]) == 0 && r[14..16] == Zeros(2)
            && r[62..64] == Zeros(2) && LittleEndian(r[64..72]) == 0
  {
    ZerosWithin(f, 6, 10, 6, 14);
    ZerosWithin(f, 6, 10, 14, 16);
    ZerosWithin(f, 62, 10, 62, 64);
    ZerosWithin(f, 62, 10, 64, 72);
    ZeroField(8);
  }

  lemma LittleEndian4(s: seq<Byte>)
    requires |s| == 4
    ensures LittleEndian(s) == s[0] as int + 256 * s[1] as int + 65536 * s[2] as int + 16777216 * s[3] as int
  {
    assert s[1..][1..] == s[2..] && s[2..][1..] == s[3..] && s[3..][1..] == [];
    assert LittleEndian(s[3..]) == s[3] as int;
    assert LittleEndian(s[2..]) == s[2] as int + 256 * s[3] as int;
  }
}
