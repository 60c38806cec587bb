/** The Image buffer of image.hpp: a row-major grid of width*height pixels of
    `channels` bytes each, with an ownership tag that decides how (and
    whether) its storage is released. A ghost log records every release. */
module Images {
  import opened Pixels

  /** Image::MemoryOwner. */
  datatype Owner = None | Local | Stb

  /** One release of storage: `delete` for Local, the codec's free for Stb. */
  datatype Release = Release(storage: array<Byte>, via: Owner)

  /** The std::range_error that Image::at throws, by coordinate. */
  datatype AtError = XOutOfRange(x: int) | YOutOfRange(y: int)

  datatype Result<T, E> = Ok(value: T) | Err(error: E)

  /** What the destructor releases for `storage` under tag `owner`. */
  function ReleaseOf(storage: array?<Byte>, owner: Owner): seq<Release>
  {
    if storage == null || owner == None then [] else [Release(storage, owner)]
  }

  /** Byte offset of cell (x, y) in a row-major buffer. */
  function CellOffset(width: int, channels: int, x: int, y: int): int
  {
    (x + width * y) * channels
  }

  lemma MulLeq(a: int, b: int, c: int)
    requires 0 <= c && a <= b
    ensures a * c <= b * c
  {
  }

  /** A cell's bytes lie inside the buffer. */
  lemma {:induction false} CellSpanInBounds(width: int, height: int, channels: int, x: int, y: int)
    requires 0 <= x < width && 0 <= y < height && channels > 0
    ensures 0 <= CellOffset(width, channels, x, y)
    ensures CellOffset(width, channels, x, y) + channels <= width * height * channels
  {
    var idx := x + width * y;
    assert 0 <= width * y by { MulLeq(0, y, width); }
    assert width * y <= width * (height - 1) by { MulLeq(y, height - 1, width); }
    assert idx + 1 <= width * height;
    MulLeq(0, idx, channels);
    MulLeq(idx + 1, width * height, channels);
    assert (idx + 1) * channels == idx * channels + channels;
  }

  /** Distinct cells of a row-major grid have distinct cell indexes. */
  lemma {:induction false} CellIndexesDistinct(width: int, x1: int, y1: int, x2: int, y2: int)
    requires 0 <= x1 < width && 0 <= x2 < width && 0 <= y1 && 0 <= y2
    requires (x1, y1) != (x2, y2)
    ensures x1 + width * y1 != x2 + width * y2
  {
    if y1 < y2 {
      MulLeq(y1 + 1, y2, width);
      assert width * (y1 + 1) == width * y1 + width;
    } else if y2 < y1 {
      MulLeq(y2 + 1, y1, width);
      assert width * (y2 + 1) == width * y2 + width;
    }
  }

  /** Distinct cells have disjoint byte spans. */
  lemma {:induction false} CellSpansDisjoint(width: int, height: int, channels: int,
                                             x1: int, y1: int, x2: int, y2: int)
    requires 0 <= x1 < width && 0 <= y1 < height
    requires 0 <= x2 < width && 0 <= y2 < height
    requires channels > 0 && (x1, y1) != (x2, y2)
    ensures CellOffset(width, channels, x1, y1) + channels <= CellOffset(width, channels, x2, y2)
         || CellOffset(width, channels, x2, y2) + channels <= CellOffset(width, channels, x1, y1)
  {
    var i1 := x1 + width * y1;
    var i2 := x2 + width * y2;
    CellIndexesDistinct(width, x1, y1, x2, y2);
    assert CellOffset(width, channels, x1, y1) == i1 * channels;
    assert CellOffset(width, channels, x2, y2) == i2 * channels;
    if i1 < i2 {
      BlockBefore(i1, i2, channels);
    } else {
      BlockBefore(i2, i1, channels);
    }
  }

  /** Block i of c bytes ends before block j starts when i < j. */
  lemma BlockBefore(i: int, j: int, c: int)
    requires i < j && c > 0
    ensures i * c + c <= j * c
  {
    MulLeq(i + 1, j, c);
    assert (i + 1) * c == i * c + c;
  }

  /** The bytes per cell of what the codec's load returns: the file's own
      channel count, or the forced count `desired` when it is not 0. */
  function DecodedChannels(fileChannels: int, desired: int): int
  {
    if desired == 0 then fileChannels else desired
  }

  /** Forcing a channel count other than the file's makes the buffer length
      disagree with width*height*channels; when fewer channels are forced,
      the last cell that `at` addresses runs past the end of the buffer. */
  lemma {:induction false} ForcedChannelsMismatch(width: int, height: int, fileChannels: int, desired: int)
    requires width > 0 && height > 0 && fileChannels > 0 && desired > 0 && desired != fileChannels
    ensures width * height * fileChannels != width * height * desired
    ensures fileChannels > desired ==>
      CellOffset(width, fileChannels, width - 1, height - 1) + fileChannels > width * height * desired
  {
    var n := width * height;
    assert n > 0 by { MulLeq(1, height, width); }
    if fileChannels > desired {
      MulLeq(desired + 1, fileChannels, n);
      assert n * (desired + 1) == n * desired + n;
      assert width - 1 + width * (height - 1) == n - 1;
      assert (n - 1) * fileChannels + fileChannels == n * fileChannels;
    } else {
      MulLeq(fileChannels + 1, desired, n);
      assert n * (fileChannels + 1) == n * fileChannels + n;
    }
  }

  /** A one-pixel RGBA file loaded with 3 channels forced: the buffer holds 3
      bytes, but `at(0, 0)` hands out a 4-byte cell. */
  lemma ForcedRgbOnRgbaFile()
    ensures DecodedChannels(4, 3) == 3
    ensures CellOffset(1, 4, 0, 0) + 4 > 1 * 1 * DecodedChannels(4, 3)
  {
  }

  /** A fresh buffer holding the same bytes as `src` (the memcpy of the copy
      operations). */
  method CopyBytes(src: array<Byte>) returns (dst: array<Byte>)
    ensures fresh(dst) && dst[..] == src[..]
  {
    dst := new Byte[src.Length];
    forall i | 0 <= i < src.Length {
      dst[i] := src[i];
    }
  }

  class Image {
    var data: array?<Byte>
    var owner: Owner
    var width: int
    var height: int
    var channels: int
    /** Every storage release this object has performed, in order. */
    ghost var released: seq<Release>

    /** Dimensions are positive; storage is present exactly when some owner
        holds it, and then has one byte per channel of every cell. */
    ghost predicate Valid()
      reads this
    {
      && width > 0 && height > 0 && channels > 0
      && (data == null <==> owner == None)
      && (data != null ==> data.Length == width * height * channels)
    }

    /** Image(int width, int height, int channels): fresh LOCAL storage of
        width*height*channels bytes with unspecified contents. */
    constructor (width: int, height: int, channels: int)
      requires width > 0 && height > 0 && channels > 0
      ensures Valid() && owner == Local && fresh(data)
      ensures this.width == width && this.height == height && this.channels == channels
      ensures data.Length == width * height * channels
      ensures released == []
    {
      this.width := width;
      this.height := height;
      this.channels := channels;
      assert 0 <= width * height * channels by {
        MulLeq(0, width, height);
        MulLeq(0, width * height, channels);
      }
      data := new Byte[width * height * channels];
      owner := Local;
      released := [];
    }

    /** The file constructors as written: the codec decodes into `storage`
        with `DecodedChannels(fileChannels, desired)` bytes per cell, but the
        channels field receives the file's own count. When a different count
        is forced, the image is not well formed (ForcedChannelsMismatch). */
    constructor FromCodecAsWritten(storage: array<Byte>, width: int, height: int,
                                   fileChannels: int, desired: int)
      requires width > 0 && height > 0 && fileChannels > 0 && desired >= 0
      requires storage.Length == width * height * DecodedChannels(fileChannels, desired)
      ensures owner == Stb && data == storage && channels == fileChannels
      ensures this.width == width && this.height == height
      ensures desired == 0 || desired == fileChannels ==> Valid()
      ensures desired != 0 && desired != fileChannels ==> !Valid()
      ensures released == []
    {
      this.width := width;
      this.height := height;
      this.channels := fileChannels;
      data := storage;
      owner := Stb;
      released := [];
      new;
      if desired != 0 && desired != fileChannels {
        ForcedChannelsMismatch(width, height, fileChannels, desired);
      }
    }

    /** The file constructors with the channel count the codec delivers: the
        image adopts the decoded storage under the STB tag and is well formed. */
    constructor FromCodec(storage: array<Byte>, width: int, height: int,
                          fileChannels: int, desired: int)
      requires width > 0 && height > 0 && fileChannels > 0 && desired >= 0
      requires storage.Length == width * height * DecodedChannels(fileChannels, desired)
      ensures Valid() && owner == Stb && data == storage
      ensures this.width == width && this.height == height
      ensures channels == DecodedChannels(fileChannels, desired)
      ensures released == []
    {
      this.width := width;
      this.height := height;
      this.channels := DecodedChannels(fileChannels, desired);
      data := storage;
      owner := Stb;
      released := [];
    }

    /** Image(const Image&): a deep copy into fresh LOCAL storage, whatever
        the tag of `other`. */
    constructor Copy(other: Image)
      requires other.Valid() && other.data != null
      ensures Valid() && owner == Local && fresh(data)
      ensures width == other.width && height == other.height && channels == other.channels
      ensures data[..] == other.data[..]
      ensures released == []
    {
      width := other.width;
      height := other.height;
      channels := other.channels;
      owner := Local;
      var copy := CopyBytes(other.data);
      data := copy;
      released := [];
    }

    /** Image(Image&&): takes over the tag and the storage handle without
        copying; `other` is left with tag NONE and no storage but keeps its
        dimensions. */
    constructor Move(other: Image)
      requires other.Valid()
      modifies other
      ensures Valid() && other.Valid()
      ensures owner == old(other.owner) && data == old(other.data)
      ensures width == old(other.width) && height == old(other.height)
      ensures channels == old(other.channels)
      ensures other.owner == None && other.data == null
      ensures other.width == old(other.width) && other.height == old(other.height)
      ensures other.channels == old(other.channels)
      ensures other.released == old(other.released) && released == []
    {
      width := other.width;
      height := other.height;
      channels := other.channels;
      owner := other.owner;
      data := other.data;
      released := [];
      new;
      other.owner := None;
      other.data := null;
    }

    /** ~Image(): releases present storage once, as its tag says, then drops
        it; with no storage it does nothing. */
    method Destroy()
      requires Valid()
      modifies this
      ensures Valid() && data == null && owner == None
      ensures width == old(width) && height == old(height) && channels == old(channels)
      ensures released == old(released) + ReleaseOf(old(data), old(owner))
    {
      if data != null {
        match owner {
          case None =>
          case Local =>
            released := released + [Release(data, Local)];
          case Stb =>
            released := released + [Release(data, Stb)];
        }
        data := null;
        owner := None;
      }
    }

    /** operator=(const Image&): a no-op on itself; otherwise it takes the
        dimensions of `other`, releases its own storage with `delete` (as if it
        were LOCAL, whatever its tag), and deep-copies `other` into fresh LOCAL
        storage. */
    method CopyAssign(other: Image)
      requires Valid() && other.Valid()
      requires other != this ==> other.data != null
      modifies this
      ensures Valid()
      ensures other == this ==> unchanged(this)
      ensures other != this ==>
        && width == other.width && height == other.height && channels == other.channels
        && owner == Local && fresh(data) && data[..] == other.data[..]
        && released == old(released) + (if old(data) != null then [Release(old(data), Local)] else [])
    {
      if other != this {
        width := other.width;
        height := other.height;
        channels := other.channels;
        if data != null {
          released := released + [Release(data, Local)];
        }
        owner := Local;
        var copy := CopyBytes(other.data);
        data := copy;
      }
    }

    /** operator=(Image&&): a no-op on itself; otherwise it takes the
        dimensions, tag and storage handle of `other` and leaves `other` with
        tag NONE and no storage. Its own previous storage is never released. */
    method MoveAssign(other: Image)
      requires Valid() && other.Valid()
      modifies this, other
      ensures Valid() && other.Valid()
      ensures other == this ==> unchanged(this)
      ensures other != this ==>
        && width == old(other.width) && height == old(other.height)
        && channels == old(other.channels)
        && owner == old(other.owner) && data == old(other.data)
        && other.owner == None && other.data == null
        && other.width == old(other.width) && other.height == old(other.height)
        && other.channels == old(other.channels)
        && released == old(released) && other.released == old(other.released)
    {
      if other != this {
        width := other.width;
        height := other.height;
        channels := other.channels;
        owner := other.owner;
        other.owner := None;
        data := other.data;
        other.data := null;
      }
    }

    /** Image::at(x, y): the offset of cell (x, y) in the storage, or the
        range error for the first coordinate that is out of range. */
    function At(x: int, y: int): (r: Result<nat, AtError>)
      reads this
      requires Valid()
      ensures r.Ok? <==> 0 <= x < width && 0 <= y < height
      ensures (x < 0 || x >= width) ==> r == Err(XOutOfRange(x))
      ensures 0 <= x < width && (y < 0 || y >= height) ==> r == Err(YOutOfRange(y))
      ensures r.Ok? ==> r.value == CellOffset(width, channels, x, y)
      ensures r.Ok? ==> r.value + channels <= width * height * channels
    {
      if x < 0 || x >= width then Err(XOutOfRange(x))
      else if y < 0 || y >= height then Err(YOutOfRange(y))
      else
        CellSpanInBounds(width, height, channels, x, y);
        Ok(CellOffset(width, channels, x, y))
    }
  }

  // ---------------------------------------------------------------------
  // Ownership scenarios: scope exit in C++ runs the destructor.

  /** Destroying twice releases the storage once. */
  method DestroyTwice(img: Image)
    requires img.Valid()
    modifies img
    ensures img.released == old(img.released) + ReleaseOf(old(img.data), old(img.owner))
    ensures |img.released| <= |old(img.released)| + 1
  {
    img.Destroy();
    img.Destroy();
  }

  /** `Image b = std::move(a);` followed by both destructors: `a` releases
      nothing and `b` releases the storage once, under the original tag. */
  method MoveThenDestroyBoth(a: Image)
    requires a.Valid()
    modifies a
    ensures a.released == old(a.released)
  {
    var b := new Image.Move(a);
    ghost var storage, tag := b.data, b.owner;
    b.Destroy();
    a.Destroy();
    assert b.released == ReleaseOf(storage, tag);
    assert storage == old(a.data) && tag == old(a.owner);
  }

  /** `Image b = a;` then a write into the copy: the copy holds the new byte
      and the original keeps every byte it had. */
  method CopyIsIndependent(a: Image, i: nat, v: Byte) returns (b: Image)
    requires a.Valid() && a.data != null && i < a.data.Length
    ensures fresh(b) && b.Valid() && b.data != null
    ensures a.data[..] == old(a.data[..])
    ensures b.data[..] == old(a.data[..])[i := v]
  {
    b := new Image.Copy(a);
    b.data[i] := v;
  }

  /** The converse: `Image b = a;` then a write into the original leaves the
      copy holding the original's old bytes. */
  method OriginalIsIndependent(a: Image, i: nat, v: Byte) returns (b: Image)
    requires a.Valid() && a.data != null && i < a.data.Length
    modifies a.data
    ensures fresh(b) && b.Valid() && b.data != null
    ensures a.data[..] == old(a.data[..])[i := v]
    ensures b.data[..] == old(a.data[..])
  {
    b := new Image.Copy(a);
    a.data[i] := v;
  }
}
