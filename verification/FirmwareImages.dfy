// The firmware image list of pkg/qmi/dms_misc.go: the builder and the parser as a pair.

module FirmwareImages {
  import opened Bytes

  const UNIQUE_ID_SIZE := 16
  const ENTRY_HEAD := 17

  type UniqueId = id: seq<Byte> | |id| == 16 witness [0, 0, 0, 0, 0, 0, 0, 0, 0, 0, 0, 0, 0, 0, 0, 0]

  datatype Image = Image(kind: Byte, uniqueID: UniqueId, buildID: seq<Byte>)

  // ------------------------------------------------------------------ building

  function ImageBytes(img: Image): seq<Byte> {
    [img.kind] + img.uniqueID + img.buildID + [0]
  }

  function ImagesBytes(images: seq<Image>): seq<Byte> {
    if images == [] then [] else ImageBytes(images[0]) + ImagesBytes(images[1..])
  }

  function ListBytes(images: seq<Image>): seq<Byte> {
    [|images| % 0x100] + ImagesBytes(images)
  }

  function TotalSize(images: seq<Image>): nat {
    if images == [] then 0 else TotalSize(images[..|images| - 1]) + ENTRY_HEAD + |images[|images| - 1].buildID| + 1
  }

  lemma {:induction false} ImagesBytesSnoc(images: seq<Image>, img: Image)
    ensures ImagesBytes(images + [img]) == ImagesBytes(images) + ImageBytes(img)
  {
    if images == [] {
      assert ImagesBytes([img][1..]) == [];
    } else {
      ImagesBytesSnoc(images[1..], img);
      assert (images + [img])[1..] == images[1..] + [img];
    }
  }

  // Writes src into buf at off.
  method Copy(buf: array<Byte>, off: nat, src: seq<Byte>)
    requires off + |src| <= buf.Length
    modifies buf
    ensures buf[..off + |src|] == old(buf[..off]) + src
  {
    for i := 0 to |src|
      invariant buf[..off + i] == old(buf[..off]) + src[..i]
    {
      buf[off + i] := src[i];
      assert src[..i + 1] == src[..i] + [src[i]];
    }
    assert src[..|src|] == src;
  }

  method CopyImage(buf: array<Byte>, start: nat, img: Image) returns (off: nat)
    requires start + ENTRY_HEAD + |img.buildID| + 1 <= buf.Length
    modifies buf
    ensures off == start + ENTRY_HEAD + |img.buildID| + 1
    ensures buf[..off] == old(buf[..start]) + ImageBytes(img)
  {
    off := start;
    Copy(buf, off, [img.kind]);
    off := off + 1;
    Copy(buf, off, img.uniqueID);
    off := off + UNIQUE_ID_SIZE;
    Copy(buf, off, img.buildID);
    off := off + |img.buildID|;
    Copy(buf, off, [0]);
    off := off + 1;
  }

  // buildDMSFirmwareImageListTLV: the value of the TLV.
  method BuildImageList(images: seq<Image>) returns (buf: array<Byte>)
    ensures buf[..] == ListBytes(images)
  {
    hide ImageBytes, ImagesBytes, TotalSize;
    var totalSize := 1;
    NoImages();
    for i := 0 to |images|
      invariant totalSize == 1 + TotalSize(images[..i])
    {
      SizeStep(images, i);
      totalSize := totalSize + (1 + UNIQUE_ID_SIZE + |images[i].buildID| + 1);
    }
    buf := new Byte[totalSize](_ => 0);
    var n: nat := |images|;
    buf[0] := n % 0x100;
    var off := 1;
    for i := 0 to |images|
      invariant fresh(buf) && buf.Length == totalSize == 1 + TotalSize(images[..|images|])
      invariant off == 1 + TotalSize(images[..i]) && off <= buf.Length
      invariant buf[..off] == [|images| % 0x100] + ImagesBytes(images[..i])
    {
      SizeStep(images, i);
      SizeGrows(images, i + 1, |images|);
      ImagesBytesSnoc(images[..i], images[i]);
      assert images[..i + 1] == images[..i] + [images[i]];
      off := CopyImage(buf, off, images[i]);
    }
    assert images[..|images|] == images;
    assert buf[..] == buf[..off];
  }

  lemma NoImages()
    ensures TotalSize([]) == 0 && ImagesBytes([]) == []
  {
  }

  lemma SizeStep(images: seq<Image>, i: nat)
    requires i < |images|
    ensures TotalSize(images[..i + 1]) == TotalSize(images[..i]) + ENTRY_HEAD + |images[i].buildID| + 1
  {
    assert images[..i + 1][..i] == images[..i];
  }

  lemma {:induction false} SizeGrows(images: seq<Image>, i: nat, j: nat)
    requires i <= j <= |images|
    ensures TotalSize(images[..i]) <= TotalSize(images[..j])
  {
    if i < j {
      SizeGrows(images, i, j - 1);
      SizeStep(images, j - 1);
    }
  }

  // ------------------------------------------------------------------ parsing

  // How many octets precede the first NUL, or all of them.
  function UntilNul(data: seq<Byte>): (n: nat)
    ensures n <= |data|
    ensures forall i | 0 <= i < n :: data[i] != 0
    ensures n < |data| ==> data[n] == 0
  {
    if data == [] || data[0] == 0 then 0 else 1 + UntilNul(data[1..])
  }

  // The end of the image that starts the data.
  function ImageEnd(data: seq<Byte>): (n: nat)
    requires |data| >= ENTRY_HEAD
    ensures ENTRY_HEAD <= n <= |data|
  {
    var end := ENTRY_HEAD + UntilNul(data[ENTRY_HEAD..]);
    if end < |data| then end + 1 else end
  }

  function ImageIn(data: seq<Byte>): Image
    requires |data| >= ENTRY_HEAD
  {
    Image(data[0], data[1..ENTRY_HEAD], data[ENTRY_HEAD..ENTRY_HEAD + UntilNul(data[ENTRY_HEAD..])])
  }

  // At most count images from the data.
  function ImagesIn(data: seq<Byte>, count: nat): seq<Image> {
    if count == 0 || |data| < ENTRY_HEAD then []
    else [ImageIn(data)] + ImagesIn(data[ImageEnd(data)..], count - 1)
  }

  function ParsedList(data: seq<Byte>): seq<Image> {
    if data == [] then [] else ImagesIn(data[1..], data[0])
  }

  // parseDMSFirmwareImages.
  method ParseImageList(data: seq<Byte>) returns (images: seq<Image>)
    ensures images == ParsedList(data)
  {
    hide ImageIn, ImageEnd;
    if |data| < 1 {
      return [];
    }
    var count := data[0];
    images := [];
    var off := 1;
    var i := 0;
    while i < count
      invariant 0 <= i <= count && 1 <= off <= |data|
      invariant images + ImagesIn(data[off..], count - i) == ParsedList(data)
    {
      if |data| < off + ENTRY_HEAD {
        break;
      }
      var img, next := ParseImage(data, off);
      assert data[off..][next - off..] == data[next..];
      images := images + [img];
      off := next;
      i := i + 1;
    }
  }

  method ParseImage(data: seq<Byte>, start: nat) returns (img: Image, off: nat)
    requires start + ENTRY_HEAD <= |data|
    ensures img == ImageIn(data[start..]) && off == start + ImageEnd(data[start..])
  {
    off := start;
    var kind := data[off];
    off := off + 1;
    var uniqueID := data[off..off + UNIQUE_ID_SIZE];
    off := off + UNIQUE_ID_SIZE;
    var end := off;
    var name := data[start..][ENTRY_HEAD..];
    while end < |data| && data[end] != 0
      invariant off <= end <= |data|
      invariant forall k | off <= k < end :: data[k] != 0
    {
      end := end + 1;
    }
    NulIsUnique(name, end - off);
    img := Image(kind, uniqueID, data[off..end]);
    off := end;
    if off < |data| && data[off] == 0 {
      off := off + 1;
    }
  }

  lemma NulIsUnique(data: seq<Byte>, n: nat)
    requires n <= |data| && (forall i | 0 <= i < n :: data[i] != 0) && (n < |data| ==> data[n] == 0)
    ensures UntilNul(data) == n
  {
  }

  // ------------------------------------------------------------------ the pair

  ghost predicate NulFree(images: seq<Image>) {
    forall i | 0 <= i < |images| :: 0 !in images[i].buildID
  }

  lemma FirstImageReadsBack(img: Image, rest: seq<Byte>)
    ensures var data := ImageBytes(img) + rest;
            && |data| >= ENTRY_HEAD
            && (0 !in img.buildID ==> ImageIn(data) == img && data[ImageEnd(data)..] == rest)
            && (0 in img.buildID ==> ImageIn(data) != img)
  {
    var data := ImageBytes(img) + rest;
    var name := data[ENTRY_HEAD..];
    assert name == img.buildID + [0] + rest;
    if 0 !in img.buildID {
      NulIsUnique(name, |img.buildID|);
      assert data[1..ENTRY_HEAD] == img.uniqueID;
    } else {
      var i :| 0 <= i < |img.buildID| && img.buildID[i] == 0;
      assert name[i] == 0;
    }
  }

  // The images read back are the images written exactly when no name holds a NUL.
  lemma {:induction false} ImagesReadBack(images: seq<Image>)
    ensures ImagesIn(ImagesBytes(images), |images|) == images <==> NulFree(images)
  {
    hide ImageBytes, ImageIn, ImageEnd;
    if images != [] {
      var rest := images[1..];
      FirstImageReadsBack(images[0], ImagesBytes(rest));
      ImagesReadBack(rest);
      assert images == [images[0]] + rest;
      assert NulFree(images) <==> 0 !in images[0].buildID && NulFree(rest);
    }
  }

  lemma {:induction false} AtMostCount(data: seq<Byte>, count: nat)
    ensures |ImagesIn(data, count)| <= count
  {
    if count > 0 && |data| >= ENTRY_HEAD {
      AtMostCount(data[ImageEnd(data)..], count - 1);
    }
  }

  // Parsing undoes building exactly for at most 255 images without a NUL in their names.
  lemma ParseUndoesBuild(images: seq<Image>)
    ensures ParsedList(ListBytes(images)) == images <==> |images| <= 0xFF && NulFree(images)
  {
    hide ImagesIn, ImagesBytes;
    var data := ListBytes(images);
    assert data[1..] == ImagesBytes(images);
    if |images| <= 0xFF {
      ImagesReadBack(images);
    } else {
      AtMostCount(ImagesBytes(images), |images| % 0x100);
    }
  }

  // Whatever the modem sends, the parsed names hold no NUL.
  lemma {:induction false} ParsedNamesAreNulFree(data: seq<Byte>, count: nat)
    ensures NulFree(ImagesIn(data, count))
  {
    if count > 0 && |data| >= ENTRY_HEAD {
      ParsedNamesAreNulFree(data[ImageEnd(data)..], count - 1);
    }
  }

  // So a parsed preference can always be written back without change.
  lemma ParsedListsRoundTrip(data: seq<Byte>)
    ensures ParsedList(ListBytes(ParsedList(data))) == ParsedList(data)
  {
    hide ImagesIn, ListBytes;
    if data != [] {
      AtMostCount(data[1..], data[0]);
      ParsedNamesAreNulFree(data[1..], data[0]);
    }
    ParseUndoesBuild(ParsedList(data));
  }
}
