/**
 * Pixel-art textures: a sprite is a grid of 0xRRGGBB values, unpacked into
 * an RGBA byte buffer (four bytes per pixel, row after row) in which pure
 * black is transparent. A sprite sheet turns a dictionary of such grids into
 * a dictionary of buffers.
 */
module Sprite {

  /** One element of the byte buffer. */
  type Byte = b: int | 0 <= b < 256

  /** What `pixels[i][j]` yields: a number, or nothing when row i is shorter
      than j + 1 (rows after the first may be shorter than the first). */
  datatype Pixel = Absent | Value(rgb: int)

  /** A texture: its size and its buffer. */
  datatype Texture = Texture(width: nat, height: nat, data: seq<Byte>)

  /** A sprite sheet, or the name of a sprite without any row (reading its
      first row fails and the whole sheet is abandoned). */
  datatype SheetResult = Sheet(textures: map<string, Texture>) | EmptySprite(name: string)

  function Entry(row: seq<int>, j: nat): Pixel
  {
    if j < |row| then Value(row[j]) else Absent
  }

  /** Bits 16-23 of the value (the shift works on its 32-bit form, which has
      the same low 24 bits); an absent entry shifts as 0. */
  function Red(px: Pixel): Byte
  {
    match px
    case Absent => 0
    case Value(p) => (p / 0x1_0000) % 0x100
  }

  /** Bits 8-15 of the value. */
  function Green(px: Pixel): Byte
  {
    match px
    case Absent => 0
    case Value(p) => (p / 0x100) % 0x100
  }

  /** Bits 0-7 of the value. */
  function Blue(px: Pixel): Byte
  {
    match px
    case Absent => 0
    case Value(p) => p % 0x100
  }

  /** Opaque unless the entry is the number 0 (an absent entry is not). */
  function Alpha(px: Pixel): Byte
  {
    if px == Value(0) then 0 else 255
  }

  function PixelBytes(px: Pixel): (r: seq<Byte>)
    ensures |r| == 4
  {
    [Red(px), Green(px), Blue(px), Alpha(px)]
  }

  /** The bytes of the first `count` pixels of a row. */
  function RowBytes(count: nat, row: seq<int>): (r: seq<Byte>)
    ensures |r| == 4 * count
  {
    if count == 0 then [] else RowBytes(count - 1, row) + PixelBytes(Entry(row, count - 1))
  }

  /** The bytes of the first `height` rows, each `width` pixels wide. */
  function ImageBytes(width: nat, height: nat, pixels: seq<seq<int>>): (r: seq<Byte>)
    requires height <= |pixels|
    ensures |r| == 4 * width * height
  {
    if height == 0 then []
    else
      var r := ImageBytes(width, height - 1, pixels) + RowBytes(width, pixels[height - 1]);
      assert 4 * width * (height - 1) + 4 * width == 4 * width * height;
      r
  }

  /** The texture a sprite sheet makes of a non-empty grid: the width is the
      length of the first row, the height the number of rows. */
  function TextureOf(rows: seq<seq<int>>): (t: Texture)
    requires |rows| > 0
    ensures t.height == |rows| && t.width == |rows[0]|
    ensures |t.data| == t.width * t.height * 4
  {
    Texture(|rows[0]|, |rows|, ImageBytes(|rows[0]|, |rows|, rows))
  }

  lemma IndexFits(width: nat, height: nat, i: nat, j: nat)
    requires i < height && j < width
    ensures (i * width + j) * 4 == 4 * width * i + 4 * j
    ensures 4 * width * i + 4 * j + 4 <= 4 * width * height
  {
    assert 4 * width * i + 4 * width == 4 * width * (i + 1);
    assert 4 * width * (i + 1) <= 4 * width * height by {
      assert i + 1 <= height;
    }
  }

  lemma ScaleMono(k: nat, a: nat, b: nat)
    requires a <= b
    ensures k * a <= k * b
  {
    assert k * b == k * a + k * (b - a);
  }

  /** The four byte writes of one pixel, at `index` .. `index + 3`. */
  method WritePixel(data: array<Byte>, index: nat, px: Pixel)
    requires index + 4 <= data.Length
    modifies data
    ensures data[..index + 4] == old(data[..index]) + PixelBytes(px)
    ensures data[index + 4..] == old(data[index + 4..])
  {
    data[index] := Red(px);
    data[index + 1] := Green(px);
    data[index + 2] := Blue(px);
    data[index + 3] := Alpha(px);
  }

  /** Fill the buffer row by row, four bytes per pixel. */
  method CreatePixelTexture(width: nat, height: nat, pixels: seq<seq<int>>) returns (data: array<Byte>)
    requires height <= |pixels|
    ensures data.Length == width * height * 4
    ensures data[..] == ImageBytes(width, height, pixels)
  {
    data := new Byte[width * height * 4](_ => 0);
    var i := 0;
    while i < height
      invariant 0 <= i <= height
      invariant data.Length == 4 * width * height
      invariant 4 * width * i <= data.Length
      invariant data[..4 * width * i] == ImageBytes(width, i, pixels)
    {
      assert 4 * width * i + 4 * width == 4 * width * (i + 1);
      ScaleMono(4 * width, i + 1, height);
      FillRow(data, width, height, i, pixels[i]);
      i := i + 1;
    }
    assert data[..] == data[..4 * width * height];
  }

  /** The inner loop of the fill: the pixels of row i, left to right. */
  method FillRow(data: array<Byte>, width: nat, height: nat, i: nat, row: seq<int>)
    requires i < height && data.Length == 4 * width * height
    requires 4 * width * i + 4 * width <= data.Length
    modifies data
    ensures data[..4 * width * i + 4 * width] == old(data[..4 * width * i]) + RowBytes(width, row)
  {
    ghost var rowStart := 4 * width * i;
    ghost var before := data[..rowStart];
    var j := 0;
    while j < width
      invariant 0 <= j <= width
      invariant rowStart + 4 * j <= data.Length
      invariant data[..rowStart + 4 * j] == before + RowBytes(j, row)
    {
      var px := Entry(row, j);
      IndexFits(width, height, i, j);
      var index := (i * width + j) * 4;
      WritePixel(data, index, px);
      assert RowBytes(j + 1, row) == RowBytes(j, row) + PixelBytes(px);
      j := j + 1;
    }
  }

  /** One texture per sprite name, or the name of a sprite without rows. */
  method CreateSpriteSheet(sprites: map<string, seq<seq<int>>>) returns (r: SheetResult)
    ensures r.Sheet? <==> forall name :: name in sprites ==> sprites[name] != []
    ensures r.EmptySprite? ==> r.name in sprites && sprites[r.name] == []
    ensures r.Sheet? ==> r.textures.Keys == sprites.Keys
    ensures r.Sheet? ==> forall name :: name in sprites ==> r.textures[name] == TextureOf(sprites[name])
  {
    var textures: map<string, Texture> := map[];
    var todo := sprites.Keys;
    while todo != {}
      invariant todo <= sprites.Keys
      invariant textures.Keys == sprites.Keys - todo
      invariant forall name :: name in textures ==> sprites[name] != [] && textures[name] == TextureOf(sprites[name])
      decreases |todo|
    {
      var name :| name in todo;
      var pixels := sprites[name];
      if |pixels| == 0 {
        return EmptySprite(name);
      }
      var height := |pixels|;
      var width := |pixels[0]|;
      var data := CreatePixelTexture(width, height, pixels);
      textures := textures[name := Texture(width, height, data[..])];
      todo := todo - {name};
    }
    r := Sheet(textures);
  }

  /** Bytes 4k+c of a row are channel c of its pixel k. */
  lemma {:induction false} RowBytesAt(count: nat, row: seq<int>, j: nat, c: nat)
    requires j < count && c < 4
    ensures RowBytes(count, row)[4 * j + c] == PixelBytes(Entry(row, j))[c]
  {
    if j < count - 1 {
      RowBytesAt(count - 1, row, j, c);
    }
  }

  /** Pixel (i, j) lands on bytes (i * width + j) * 4 .. + 3, inside the
      buffer, as its red, green, blue and alpha bytes. */
  lemma {:induction false} ImageBytesAt(width: nat, height: nat, pixels: seq<seq<int>>, i: nat, j: nat, c: nat)
    requires height <= |pixels| && i < height && j < width && c < 4
    ensures (i * width + j) * 4 + c < |ImageBytes(width, height, pixels)|
    ensures ImageBytes(width, height, pixels)[(i * width + j) * 4 + c] == PixelBytes(Entry(pixels[i], j))[c]
  {
    IndexFits(width, height, i, j);
    if i == height - 1 {
      RowBytesAt(width, pixels[i], j, c);
    } else {
      ImageBytesAt(width, height - 1, pixels, i, j, c);
    }
  }

  /** Distinct pixels are written to disjoint byte ranges. */
  lemma PixelRangesDisjoint(width: nat, i: nat, j: nat, i': nat, j': nat, c: nat, c': nat)
    requires j < width && j' < width && c < 4 && c' < 4
    requires i != i' || j != j'
    ensures (i * width + j) * 4 + c != (i' * width + j') * 4 + c'
  {
    var a, b := i * width + j, i' * width + j';
    if i < i' {
      RowStartsApart(width, i, i');
    } else if i' < i {
      RowStartsApart(width, i', i);
    }
    assert a != b;
    if a < b {
      assert a * 4 + 4 <= b * 4;
    } else {
      assert b * 4 + 4 <= a * 4;
    }
  }

  lemma RowStartsApart(width: nat, i: nat, i': nat)
    requires i < i'
    ensures i * width + width <= i' * width
  {
    var d := i' - i - 1;
    assert i' * width == i * width + width + d * width;
  }

  /** The three colour bytes are the value's 24 bits: packing them gives the
      value back, and unpacking a packed value gives the bytes back. */
  lemma ChannelsRoundTrip(p: int)
    requires 0 <= p < 0x100_0000
    ensures Red(Value(p)) * 0x1_0000 + Green(Value(p)) * 0x100 + Blue(Value(p)) == p
  {
  }

  lemma PackThenUnpack(r: Byte, g: Byte, b: Byte)
    ensures Red(Value(r * 0x1_0000 + g * 0x100 + b)) == r
    ensures Green(Value(r * 0x1_0000 + g * 0x100 + b)) == g
    ensures Blue(Value(r * 0x1_0000 + g * 0x100 + b)) == b
  {
  }

  /** Alpha is 0 exactly for the value 0: pure black is transparent, every
      other value (and a missing entry) is opaque. */
  lemma BlackIsTransparent(px: Pixel)
    ensures Alpha(px) == 0 <==> px == Value(0)
    ensures Alpha(px) != 0 ==> Alpha(px) == 255
  {
  }

  /** A missing entry (a row shorter than the first) becomes opaque black. */
  lemma MissingEntryIsOpaqueBlack(row: seq<int>, j: nat)
    requires j >= |row|
    ensures PixelBytes(Entry(row, j)) == [0, 0, 0, 255]
  {
  }
}
