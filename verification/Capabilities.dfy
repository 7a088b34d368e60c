/** The capability tree of a phone: cameras, their formats, and codecs, as a control message. */
module Capabilities {
  import opened Bytes
  import opened Cbor
  import opened Control
  import opened Wrappers
  import CborRoundTrip
  import Utf8

  datatype CaptureFormat = CaptureFormat(width: nat, height: nat, fps: nat)

  /** Text fields are their UTF-8 bytes. */
  datatype Camera = Camera(id: seq<Byte>, name: seq<Byte>, position: seq<Byte>, lens: seq<Byte>,
                           formats: seq<CaptureFormat>)

  datatype Caps = Caps(cameras: seq<Camera>, codecs: seq<seq<Byte>>)

  const CAPS: seq<Byte> := Ascii("caps")
  const CAMERAS: seq<Byte> := Ascii("cameras")
  const CODECS: seq<Byte> := Ascii("codecs")
  const ID: seq<Byte> := Ascii("id")
  const NAME: seq<Byte> := Ascii("name")
  const POSITION: seq<Byte> := Ascii("position")
  const LENS: seq<Byte> := Ascii("lens")
  const FORMATS: seq<Byte> := Ascii("formats")
  const WIDTH: seq<Byte> := Ascii("width")
  const HEIGHT: seq<Byte> := Ascii("height")
  const FPS: seq<Byte> := Ascii("fps")
  const H264: seq<Byte> := Ascii("h264")
  const HEVC: seq<Byte> := Ascii("hevc")

  const MAX_SIDE := 4096
  const MAX_FPS := 120

  // ---------------------------------------------------------------------------
  // Formats in order

  predicate Before(a: CaptureFormat, b: CaptureFormat) {
    if a.width != b.width then a.width < b.width
    else if a.height != b.height then a.height < b.height
    else a.fps < b.fps
  }

  predicate InOrder(s: seq<CaptureFormat>) {
    forall i, j :: 0 <= i < j < |s| ==> !Before(s[j], s[i])
  }

  function Slot(s: seq<CaptureFormat>, f: CaptureFormat): seq<CaptureFormat> {
    if s == [] || Before(f, s[0]) then [f] + s else [s[0]] + Slot(s[1..], f)
  }

  function Ordered(s: seq<CaptureFormat>): seq<CaptureFormat> {
    if s == [] then [] else Slot(Ordered(s[1..]), s[0])
  }

  lemma {:induction false} SlotKeepsOrder(s: seq<CaptureFormat>, f: CaptureFormat)
    requires InOrder(s)
    ensures InOrder(Slot(s, f)) && multiset(Slot(s, f)) == multiset(s) + multiset{f}
  {
    if s == [] || Before(f, s[0]) {
      forall j | 0 <= j < |s| ensures !Before(s[j], f) {
        if j > 0 { assert !Before(s[j], s[0]); }
      }
    } else {
      SlotKeepsOrder(s[1..], f);
      var rest := Slot(s[1..], f);
      assert s == [s[0]] + s[1..];
      forall j | 0 <= j < |rest| ensures !Before(rest[j], s[0]) {
        assert rest[j] in multiset(rest);
        if rest[j] != f {
          assert rest[j] in s[1..];
          var i :| 0 <= i < |s[1..]| && s[1..][i] == rest[j];
          assert s[i + 1] == rest[j];
        }
      }
    }
  }

  /** Sorting loses and invents nothing. */
  lemma {:induction false} OrderedIsSorted(s: seq<CaptureFormat>)
    ensures InOrder(Ordered(s)) && multiset(Ordered(s)) == multiset(s) && |Ordered(s)| == |s|
  {
    if s != [] {
      OrderedIsSorted(s[1..]);
      SlotKeepsOrder(Ordered(s[1..]), s[0]);
      assert s == [s[0]] + s[1..];
    }
    assert |multiset(Ordered(s))| == |Ordered(s)| && |multiset(s)| == |s|;
  }

  /** Nothing in a sorted list comes before its head. */
  lemma HeadIsFirst(s: seq<CaptureFormat>, f: CaptureFormat)
    requires s != [] && InOrder(s) && f in multiset(s)
    ensures !Before(f, s[0])
  {
    var i :| 0 <= i < |s| && s[i] == f;
  }

  lemma TailsAgree(s: seq<CaptureFormat>, t: seq<CaptureFormat>)
    requires s != [] && t != [] && s[0] == t[0] && multiset(s) == multiset(t)
    ensures multiset(s[1..]) == multiset(t[1..])
  {
    assert s == [s[0]] + s[1..] && t == [t[0]] + t[1..];
    assert multiset(s[1..]) == multiset(s) - multiset{s[0]};
    assert multiset(t[1..]) == multiset(t) - multiset{t[0]};
  }

  /** There is one sorted arrangement, so it does not matter how the program sorts. */
  lemma {:induction false} OneOrder(s: seq<CaptureFormat>, t: seq<CaptureFormat>)
    requires InOrder(s) && InOrder(t) && multiset(s) == multiset(t)
    ensures s == t
  {
    assert |multiset(s)| == |s| && |multiset(t)| == |t|;
    if s != [] {
      assert s[0] in multiset(s) && t[0] in multiset(t);
      HeadIsFirst(t, s[0]);
      HeadIsFirst(s, t[0]);
      TailsAgree(s, t);
      OneOrder(s[1..], t[1..]);
      assert s == [s[0]] + s[1..] && t == [t[0]] + t[1..];
    }
  }

  /** The formats sorted in place, as the builder does before it lists them. */
  method SortFormats(a: array<CaptureFormat>)
    modifies a
    ensures a[..] == Ordered(old(a[..]))
  {
    ghost var was := a[..];
    for n := 0 to a.Length
      invariant InOrder(a[..n]) && a[n..] == was[n..] && multiset(a[..]) == multiset(was)
    {
      SinkInto(a, n);
    }
    assert a[..a.Length] == a[..];
    OrderedIsSorted(was);
    OneOrder(a[..], Ordered(was));
  }

  /** Moves element n down to its place among the sorted ones before it. */
  method SinkInto(a: array<CaptureFormat>, n: nat)
    requires n < a.Length && InOrder(a[..n])
    modifies a
    ensures InOrder(a[..n + 1]) && a[n + 1..] == old(a[n + 1..])
    ensures multiset(a[..]) == multiset(old(a[..]))
  {
    ghost var was := a[..];
    assert was[..n] == a[..n];
    var i := n;
    while i > 0 && Before(a[i], a[i - 1])
      invariant 0 <= i <= n && Moved(was, a[..], n, i)
      invariant forall k :: i <= k < n ==> Before(was[n], was[k])
    {
      a[i - 1], a[i] := a[i], a[i - 1];
      i := i - 1;
    }
    MovedIsSorted(was, a[..], n, i);
    MovedIsPermutation(was, a[..], n, i);
    assert a[..][..n + 1] == a[..n + 1];
  }

  /** `r` is `s` with element n taken out and put in front of element i. */
  predicate Moved(s: seq<CaptureFormat>, r: seq<CaptureFormat>, n: nat, i: nat) {
    && i <= n < |s| == |r| && r[i] == s[n]
    && (forall k :: 0 <= k < i ==> r[k] == s[k])
    && (forall k :: i < k <= n ==> r[k] == s[k - 1])
    && (forall k :: n < k < |s| ==> r[k] == s[k])
  }

  lemma MovedIsPermutation(s: seq<CaptureFormat>, r: seq<CaptureFormat>, n: nat, i: nat)
    requires Moved(s, r, n, i)
    ensures multiset(r) == multiset(s) && r[n + 1..] == s[n + 1..]
  {
    var front, middle, back := s[..i], s[i..n], s[n + 1..];
    assert r == front + ([s[n]] + middle) + back;
    assert s == front + (middle + [s[n]]) + back;
    assert multiset([s[n]] + middle) == multiset(middle + [s[n]]);
  }

  lemma MovedIsSorted(s: seq<CaptureFormat>, r: seq<CaptureFormat>, n: nat, i: nat)
    requires Moved(s, r, n, i) && InOrder(s[..n])
    requires forall k :: i <= k < n ==> Before(s[n], s[k])
    requires i > 0 ==> !Before(s[n], s[i - 1])
    ensures InOrder(r[..n + 1])
  {
    forall j, k | 0 <= j < k <= n ensures !Before(r[k], r[j]) {
      MovedPair(s, r, n, i, j, k);
    }
  }

  lemma MovedPair(s: seq<CaptureFormat>, r: seq<CaptureFormat>, n: nat, i: nat, j: nat, k: nat)
    requires Moved(s, r, n, i) && j < k <= n && InOrder(s[..n])
    requires forall m :: i <= m < n ==> Before(s[n], s[m])
    requires i > 0 ==> !Before(s[n], s[i - 1])
    ensures !Before(r[k], r[j])
  {
    var front := s[..n];
    if k == i {
      assert !Before(front[i - 1], front[j]) || j == i - 1;
    } else if j != i {
      assert !Before(front[if k < i then k else k - 1], front[if j < i then j else j - 1]);
    }
  }

  // ---------------------------------------------------------------------------
  // Building the tree

  function FormatEntries(f: CaptureFormat): seq<Entry> {
    Put(Put(Put([], WIDTH, Unsigned(f.width)), HEIGHT, Unsigned(f.height)), FPS, Unsigned(f.fps))
  }

  function FormatValue(f: CaptureFormat): Value {
    Map(FormatEntries(f))
  }

  function FormatValues(formats: seq<CaptureFormat>): (r: seq<Value>)
    ensures |r| == |formats|
  {
    if formats == [] then []
    else FormatValues(formats[..|formats| - 1]) + [FormatValue(formats[|formats| - 1])]
  }

  function CameraTexts(c: Camera): seq<Entry> {
    Put(Put(Put(Put([], ID, Text(c.id)), NAME, Text(c.name)), POSITION, Text(c.position)), LENS, Text(c.lens))
  }

  function CameraEntries(c: Camera): seq<Entry> {
    Put(CameraTexts(c), FORMATS, Array(FormatValues(Ordered(c.formats))))
  }

  function CameraValues(cameras: seq<Camera>): (r: seq<Value>)
    ensures |r| == |cameras|
  {
    if cameras == [] then []
    else CameraValues(cameras[..|cameras| - 1]) + [Map(CameraEntries(cameras[|cameras| - 1]))]
  }

  function CodecValues(codecs: seq<seq<Byte>>): (r: seq<Value>)
    ensures |r| == |codecs|
  {
    if codecs == [] then [] else CodecValues(codecs[..|codecs| - 1]) + [Text(codecs[|codecs| - 1])]
  }

  function Describe(c: Caps): Message {
    Message(CAPS, Put(Put([], CAMERAS, Array(CameraValues(c.cameras))), CODECS, Array(CodecValues(c.codecs))))
  }

  // ---------------------------------------------------------------------------
  // Reading it back, strictly

  predicate OnlyFields(entries: seq<Entry>, allowed: set<seq<Byte>>) {
    forall e :: e in entries ==> e.key in allowed
  }

  function TextAt(entries: seq<Entry>, key: seq<Byte>): Option<seq<Byte>> {
    match Find(entries, key)
    case None => None
    case Some(v) => if v.Text? then Some(v.text) else None
  }

  function UnsignedAt(entries: seq<Entry>, key: seq<Byte>): Option<nat> {
    match Find(entries, key)
    case None => None
    case Some(v) => if v.Unsigned? then Some(v.u) else None
  }

  function ArrayAt(entries: seq<Entry>, key: seq<Byte>): Option<seq<Value>> {
    match Find(entries, key)
    case None => None
    case Some(v) => if v.Array? then Some(v.items) else None
  }

  predicate FormatFits(f: CaptureFormat) {
    0 < f.width <= MAX_SIDE && 0 < f.height <= MAX_SIDE && 0 < f.fps <= MAX_FPS
  }

  function ParseFormat(v: Value): Option<CaptureFormat> {
    if !v.Map? || !OnlyFields(v.entries, {WIDTH, HEIGHT, FPS}) then None
    else
      var width, height, fps := UnsignedAt(v.entries, WIDTH), UnsignedAt(v.entries, HEIGHT), UnsignedAt(v.entries, FPS);
      if width == None || height == None || fps == None then None
      else
        var f := CaptureFormat(width.value, height.value, fps.value);
        if FormatFits(f) then Some(f) else None
  }

  function ParseFormats(items: seq<Value>): Option<seq<CaptureFormat>> {
    if items == [] then Some([])
    else
      var front, last := ParseFormats(items[..|items| - 1]), ParseFormat(items[|items| - 1]);
      if front == None || last == None then None else Some(front.value + [last.value])
  }

  function ParseCamera(v: Value): Option<Camera> {
    if !v.Map? || !OnlyFields(v.entries, {ID, NAME, POSITION, LENS, FORMATS}) then None
    else
      var id, name := TextAt(v.entries, ID), TextAt(v.entries, NAME);
      var position, lens := TextAt(v.entries, POSITION), TextAt(v.entries, LENS);
      if id == None || id.value == [] || name == None || position == None || lens == None then None
      else match ArrayAt(v.entries, FORMATS)
        case None => None
        case Some(items) =>
          match ParseFormats(items)
          case None => None
          case Some(formats) => Some(Camera(id.value, name.value, position.value, lens.value, formats))
  }

  function ParseCameras(items: seq<Value>): Option<seq<Camera>> {
    if items == [] then Some([])
    else
      var front, last := ParseCameras(items[..|items| - 1]), ParseCamera(items[|items| - 1]);
      if front == None || last == None then None else Some(front.value + [last.value])
  }

  function ParseCodecs(items: seq<Value>): Option<seq<seq<Byte>>> {
    if items == [] then Some([])
    else
      var front, last := ParseCodecs(items[..|items| - 1]), items[|items| - 1];
      if front == None || !last.Text? || !KnownCodec(last.text) then None
      else Some(front.value + [last.text])
  }

  function ParseCaps(m: Message): Option<Caps> {
    if m.kind != CAPS || !OnlyFields(m.fields, {CAMERAS, CODECS}) then None
    else
      var cameras, codecs := ArrayAt(m.fields, CAMERAS), ArrayAt(m.fields, CODECS);
      if cameras == None || codecs == None then None
      else match ParseCameras(cameras.value)
        case None => None
        case Some(parsed) =>
          match ParseCodecs(codecs.value)
          case None => None
          case Some(names) => Some(Caps(parsed, names))
  }

  // ---------------------------------------------------------------------------
  // Entries found again

  lemma {:induction false} FindErased(entries: seq<Entry>, key: seq<Byte>, other: seq<Byte>)
    requires key != other
    ensures Find(Erase(entries, key), other) == Find(entries, other)
  {
    if entries != [] {
      FindErased(entries[1..], key, other);
      var rest := Erase(entries[1..], key);
      assert [] + rest == rest && ([entries[0]] + rest)[1..] == rest;
    }
  }

  lemma {:induction false} FindInserted(entries: seq<Entry>, e: Entry, other: seq<Byte>)
    requires e.key != other
    ensures Find(Insert(entries, e), other) == Find(entries, other)
  {
    if entries == [] || KeyLess(e.key, entries[0].key) {
      assert ([e] + entries)[1..] == entries;
    } else {
      FindInserted(entries[1..], e, other);
      assert ([entries[0]] + Insert(entries[1..], e))[1..] == Insert(entries[1..], e);
    }
  }

  lemma {:induction false} InsertMembers(entries: seq<Entry>, e: Entry)
    ensures forall x :: x in Insert(entries, e) <==> x == e || x in entries
  {
    if entries == [] || KeyLess(e.key, entries[0].key) {
    } else {
      InsertMembers(entries[1..], e);
      assert entries == [entries[0]] + entries[1..];
    }
  }

  /** After a put, the key has the value, every other key what it had, and no other key is there. */
  lemma PutFinds(entries: seq<Entry>, key: seq<Byte>, value: Value, allowed: set<seq<Byte>>)
    requires Sorted(entries) && OnlyFields(entries, allowed)
    ensures Sorted(Put(entries, key, value)) && OnlyFields(Put(entries, key, value), allowed + {key})
    ensures Find(Put(entries, key, value), key) == Some(value)
    ensures forall other :: other != key ==> Find(Put(entries, key, value), other) == Find(entries, other)
  {
    EraseIsSorted(entries, key);
    EraseMembers(entries, key);
    InsertIsSorted(Erase(entries, key), Entry(key, value));
    InsertMembers(Erase(entries, key), Entry(key, value));
    EraseInserted(Erase(entries, key), Entry(key, value));
    forall other | other != key ensures Find(Put(entries, key, value), other) == Find(entries, other) {
      FindErased(entries, key, other);
      FindInserted(Erase(entries, key), Entry(key, value), other);
    }
  }

  lemma FormatParses(f: CaptureFormat)
    ensures ParseFormat(FormatValue(f)) == if FormatFits(f) then Some(f) else None
  {
    var one := Put([], WIDTH, Unsigned(f.width));
    var two := Put(one, HEIGHT, Unsigned(f.height));
    PutFinds([], WIDTH, Unsigned(f.width), {});
    PutFinds(one, HEIGHT, Unsigned(f.height), {} + {WIDTH});
    PutFinds(two, FPS, Unsigned(f.fps), {} + {WIDTH} + {HEIGHT});
    assert {} + {WIDTH} + {HEIGHT} + {FPS} == {WIDTH, HEIGHT, FPS};
  }

  predicate FormatsFit(formats: seq<CaptureFormat>) {
    forall f :: f in formats ==> FormatFits(f)
  }

  lemma FormatsFitByLast(front: seq<CaptureFormat>, last: CaptureFormat)
    ensures FormatsFit(front + [last]) <==> FormatsFit(front) && FormatFits(last)
  {
    if FormatsFit(front + [last]) {
      assert last in front + [last] && forall d :: d in front ==> d in front + [last];
    }
  }

  function FormatsOutcome(formats: seq<CaptureFormat>): Option<seq<CaptureFormat>> {
    if formats == [] then Some([])
    else
      var front, last := FormatsOutcome(formats[..|formats| - 1]), formats[|formats| - 1];
      if front == None || !FormatFits(last) then None else Some(front.value + [last])
  }

  lemma {:induction false} FormatsParse(formats: seq<CaptureFormat>)
    ensures ParseFormats(FormatValues(formats)) == FormatsOutcome(formats)
  {
    if formats != [] {
      var front, last := formats[..|formats| - 1], formats[|formats| - 1];
      FormatsParse(front);
      FormatParses(last);
      assert FormatValues(formats)[..|formats| - 1] == FormatValues(front);
    }
  }

  lemma {:induction false} FormatsComeOut(formats: seq<CaptureFormat>)
    ensures FormatsOutcome(formats) == if FormatsFit(formats) then Some(formats) else None
  {
    if formats != [] {
      var front, last := formats[..|formats| - 1], formats[|formats| - 1];
      FormatsComeOut(front);
      FormatsFitByLast(front, last);
      assert formats == front + [last];
    }
  }

  predicate CameraFits(c: Camera) {
    c.id != [] && FormatsFit(c.formats)
  }

  function SortedCamera(c: Camera): Camera {
    c.(formats := Ordered(c.formats))
  }

  lemma OrderedFits(c: Camera)
    ensures FormatsFit(Ordered(c.formats)) <==> FormatsFit(c.formats)
  {
    OrderedIsSorted(c.formats);
    forall f ensures f in Ordered(c.formats) <==> f in c.formats {
      assert f in multiset(Ordered(c.formats)) <==> f in multiset(c.formats);
    }
  }

  lemma KeysDiffer()
    ensures |ID| == 2 && |NAME| == 4 && |LENS| == 4 && |FORMATS| == 7 && |POSITION| == 8
    ensures NAME != LENS && |CAMERAS| == 7 && |CODECS| == 6
    ensures |H264| == 4 && H264 != HEVC
  {
    assert NAME[0] != LENS[0] && H264[1] != HEVC[1];
  }

  /** What the reader finds in a camera's map, before the formats are put there. */
  lemma CameraTextsFind(c: Camera)
    ensures var e := CameraTexts(c);
            && Sorted(e) && OnlyFields(e, {ID, NAME, POSITION, LENS})
            && Find(e, ID) == Some(Text(c.id)) && Find(e, NAME) == Some(Text(c.name))
            && Find(e, POSITION) == Some(Text(c.position)) && Find(e, LENS) == Some(Text(c.lens))
  {
    KeysDiffer();
    var one := Put([], ID, Text(c.id));
    var two := Put(one, NAME, Text(c.name));
    var three := Put(two, POSITION, Text(c.position));
    PutFinds([], ID, Text(c.id), {});
    PutFinds(one, NAME, Text(c.name), {} + {ID});
    PutFinds(two, POSITION, Text(c.position), {} + {ID} + {NAME});
    PutFinds(three, LENS, Text(c.lens), {} + {ID} + {NAME} + {POSITION});
    assert {} + {ID} + {NAME} + {POSITION} + {LENS} == {ID, NAME, POSITION, LENS};
  }

  /** ... and after. */
  lemma CameraFinds(c: Camera)
    ensures var e := CameraEntries(c);
            && Sorted(e) && OnlyFields(e, {ID, NAME, POSITION, LENS, FORMATS})
            && Find(e, ID) == Some(Text(c.id)) && Find(e, NAME) == Some(Text(c.name))
            && Find(e, POSITION) == Some(Text(c.position)) && Find(e, LENS) == Some(Text(c.lens))
            && Find(e, FORMATS) == Some(Array(FormatValues(Ordered(c.formats))))
  {
    KeysDiffer();
    CameraTextsFind(c);
    PutFinds(CameraTexts(c), FORMATS, Array(FormatValues(Ordered(c.formats))), {ID, NAME, POSITION, LENS});
    assert {ID, NAME, POSITION, LENS} + {FORMATS} == {ID, NAME, POSITION, LENS, FORMATS};
  }

  lemma CameraParses(c: Camera)
    ensures ParseCamera(Map(CameraEntries(c))) == if CameraFits(c) then Some(SortedCamera(c)) else None
  {
    CameraFinds(c);
    FormatsParse(Ordered(c.formats));
    FormatsComeOut(Ordered(c.formats));
    OrderedFits(c);
  }

  function SortedCameras(cameras: seq<Camera>): (r: seq<Camera>)
    ensures |r| == |cameras|
  {
    if cameras == [] then []
    else SortedCameras(cameras[..|cameras| - 1]) + [SortedCamera(cameras[|cameras| - 1])]
  }

  predicate CamerasFit(cameras: seq<Camera>) {
    forall c :: c in cameras ==> CameraFits(c)
  }

  predicate KnownCodec(codec: seq<Byte>) {
    codec == H264 || codec == HEVC
  }

  predicate CodecsFit(codecs: seq<seq<Byte>>) {
    forall c :: c in codecs ==> KnownCodec(c)
  }

  lemma CamerasFitByLast(front: seq<Camera>, last: Camera)
    ensures CamerasFit(front + [last]) <==> CamerasFit(front) && CameraFits(last)
  {
    if CamerasFit(front + [last]) {
      assert last in front + [last] && forall d :: d in front ==> d in front + [last];
    }
  }

  lemma CodecsFitByLast(front: seq<seq<Byte>>, last: seq<Byte>)
    ensures CodecsFit(front + [last]) <==> CodecsFit(front) && KnownCodec(last)
  {
    if CodecsFit(front + [last]) {
      assert last in front + [last] && forall d :: d in front ==> d in front + [last];
    }
  }

  function CameraOutcome(c: Camera): Option<Camera> {
    if CameraFits(c) then Some(SortedCamera(c)) else None
  }

  function CamerasOutcome(cameras: seq<Camera>): Option<seq<Camera>> {
    if cameras == [] then Some([])
    else
      var front := CamerasOutcome(cameras[..|cameras| - 1]);
      var last := CameraOutcome(cameras[|cameras| - 1]);
      if front == None || last == None then None else Some(front.value + [last.value])
  }

  lemma {:induction false} CamerasParse(cameras: seq<Camera>)
    ensures ParseCameras(CameraValues(cameras)) == CamerasOutcome(cameras)
  {
    if cameras != [] {
      var front, last := cameras[..|cameras| - 1], cameras[|cameras| - 1];
      CamerasParse(front);
      CameraParses(last);
      assert CameraValues(cameras)[..|cameras| - 1] == CameraValues(front);
    }
  }

  lemma {:induction false} CamerasComeOut(cameras: seq<Camera>)
    ensures CamerasOutcome(cameras) == if CamerasFit(cameras) then Some(SortedCameras(cameras)) else None
  {
    if cameras != [] {
      var front, last := cameras[..|cameras| - 1], cameras[|cameras| - 1];
      CamerasComeOut(front);
      CamerasFitByLast(front, last);
      assert cameras == front + [last];
    }
  }

  lemma {:induction false} CodecsParse(codecs: seq<seq<Byte>>)
    ensures ParseCodecs(CodecValues(codecs)) == if CodecsFit(codecs) then Some(codecs) else None
  {
    if codecs != [] {
      var front, last := codecs[..|codecs| - 1], codecs[|codecs| - 1];
      CodecsParse(front);
      CodecsFitByLast(front, last);
      assert CodecValues(codecs)[..|codecs| - 1] == CodecValues(front);
      assert codecs == front + [last];
    }
  }

  /** What a reader will accept: named cameras, formats that fit, known codecs. */
  predicate Fits(c: Caps) {
    CamerasFit(c.cameras) && CodecsFit(c.codecs)
  }

  lemma DescribeFinds(c: Caps)
    ensures var e := Describe(c).fields;
            && Sorted(e) && OnlyFields(e, {CAMERAS, CODECS})
            && Find(e, CAMERAS) == Some(Array(CameraValues(c.cameras)))
            && Find(e, CODECS) == Some(Array(CodecValues(c.codecs)))
  {
    KeysDiffer();
    var one := Put([], CAMERAS, Array(CameraValues(c.cameras)));
    PutFinds([], CAMERAS, Array(CameraValues(c.cameras)), {});
    PutFinds(one, CODECS, Array(CodecValues(c.codecs)), {} + {CAMERAS});
    assert {} + {CAMERAS} + {CODECS} == {CAMERAS, CODECS};
  }

  /** The tree comes back, each format list sorted, exactly when every part of it is acceptable. */
  lemma CapsParse(c: Caps)
    ensures ParseCaps(Describe(c)) == if Fits(c) then Some(Caps(SortedCameras(c.cameras), c.codecs)) else None
  {
    DescribeFinds(c);
    CamerasParse(c.cameras);
    CamerasComeOut(c.cameras);
    CodecsParse(c.codecs);
  }

  // ---------------------------------------------------------------------------
  // Over the wire

  predicate ValidText(t: seq<Byte>) {
    |t| < Limit(8) && Utf8.WellFormed(t)
  }

  /** What CBOR can carry of a tree. */
  predicate Carriable(c: Caps) {
    && |c.cameras| <= MAX_COLLECTION_ELEMENTS && |c.codecs| <= MAX_COLLECTION_ELEMENTS
    && (forall camera :: camera in c.cameras ==> CarriableCamera(camera))
    && (forall codec :: codec in c.codecs ==> ValidText(codec))
  }

  predicate CarriableCamera(c: Camera) {
    && ValidText(c.id) && ValidText(c.name) && ValidText(c.position) && ValidText(c.lens)
    && |c.formats| <= MAX_COLLECTION_ELEMENTS
    && (forall f :: f in c.formats ==> CarriableFormat(f))
  }

  lemma {:induction false} OneMoreItem(items: seq<Value>, item: Value, depth: nat)
    requires ValidItems(items, depth) && Valid(item, depth)
    ensures ValidItems(items + [item], depth)
  {
    if items == [] {
      assert [item][1..] == [];
    } else {
      OneMoreItem(items[1..], item, depth);
      assert (items + [item])[1..] == items[1..] + [item];
    }
  }

  lemma AsciiKeyIsValid(key: seq<Byte>)
    requires |key| <= 10 && forall b :: b in key ==> b < 0x80
    ensures ValidKey(key)
  {
    AsciiIsUtf8(key);
    Limits();
  }

  lemma KeysAreValid()
    ensures ValidKey(ID) && ValidKey(NAME) && ValidKey(POSITION) && ValidKey(LENS) && ValidKey(FORMATS)
    ensures ValidKey(WIDTH) && ValidKey(HEIGHT) && ValidKey(FPS) && ValidKey(CAMERAS) && ValidKey(CODECS)
    ensures ValidText(CAPS)
  {
    AsciiKeyIsValid(ID);
    AsciiKeyIsValid(NAME);
    AsciiKeyIsValid(POSITION);
    AsciiKeyIsValid(LENS);
    AsciiKeyIsValid(FORMATS);
    AsciiKeyIsValid(WIDTH);
    AsciiKeyIsValid(HEIGHT);
    AsciiKeyIsValid(FPS);
    AsciiKeyIsValid(CAMERAS);
    AsciiKeyIsValid(CODECS);
    AsciiKeyIsValid(CAPS);
  }

  predicate CarriableFormat(f: CaptureFormat) {
    f.width < Limit(8) && f.height < Limit(8) && f.fps < Limit(8)
  }

  /** Entries that may stand in a map at this depth. */
  predicate Standing(entries: seq<Entry>, depth: nat, most: nat) {
    Sorted(entries) && CborRoundTrip.ValidEach(entries, depth) && |entries| <= most
  }

  lemma OneMoreEntry(entries: seq<Entry>, key: seq<Byte>, value: Value, depth: nat, most: nat)
    requires Standing(entries, depth, most) && ValidKey(key) && Valid(value, depth)
    ensures Standing(Put(entries, key, value), depth, most + 1)
  {
    PutIsValid(entries, key, value, depth);
  }

  lemma StandingIsValid(entries: seq<Entry>, depth: nat)
    requires Standing(entries, depth + 1, 5) && depth < MAX_NESTING_DEPTH
    ensures Valid(Map(entries), depth)
  {
    CborRoundTrip.ValidEachIsValid(entries, depth + 1);
  }

  lemma FormatStands(f: CaptureFormat, depth: nat)
    requires CarriableFormat(f) && depth <= MAX_NESTING_DEPTH
    ensures Standing(FormatEntries(f), depth, 3)
  {
    KeysAreValid();
    var one := Put([], WIDTH, Unsigned(f.width));
    var two := Put(one, HEIGHT, Unsigned(f.height));
    OneMoreEntry([], WIDTH, Unsigned(f.width), depth, 0);
    OneMoreEntry(one, HEIGHT, Unsigned(f.height), depth, 1);
    OneMoreEntry(two, FPS, Unsigned(f.fps), depth, 2);
  }

  lemma FormatIsValid(f: CaptureFormat, depth: nat)
    requires CarriableFormat(f) && depth < MAX_NESTING_DEPTH
    ensures Valid(FormatValue(f), depth)
  {
    FormatStands(f, depth + 1);
    StandingIsValid(FormatEntries(f), depth);
  }

  lemma {:induction false} FormatsAreValid(formats: seq<CaptureFormat>, depth: nat)
    requires (forall f :: f in formats ==> CarriableFormat(f)) && depth < MAX_NESTING_DEPTH
    ensures ValidItems(FormatValues(formats), depth)
  {
    if formats != [] {
      var front, last := formats[..|formats| - 1], formats[|formats| - 1];
      FormatsAreValid(front, depth);
      FormatIsValid(last, depth);
      OneMoreItem(FormatValues(front), FormatValue(last), depth);
    }
  }

  lemma TextIsValid(t: seq<Byte>, depth: nat)
    requires ValidText(t) && depth <= MAX_NESTING_DEPTH
    ensures Valid(Text(t), depth)
  {
  }

  lemma TextsAreValid(c: Camera, depth: nat)
    requires CarriableCamera(c) && depth <= MAX_NESTING_DEPTH
    ensures Standing(CameraTexts(c), depth, 4)
  {
    KeysAreValid();
    TextIsValid(c.id, depth);
    TextIsValid(c.name, depth);
    TextIsValid(c.position, depth);
    TextIsValid(c.lens, depth);
    var one := Put([], ID, Text(c.id));
    var two := Put(one, NAME, Text(c.name));
    var three := Put(two, POSITION, Text(c.position));
    OneMoreEntry([], ID, Text(c.id), depth, 0);
    OneMoreEntry(one, NAME, Text(c.name), depth, 1);
    OneMoreEntry(two, POSITION, Text(c.position), depth, 2);
    OneMoreEntry(three, LENS, Text(c.lens), depth, 3);
  }

  lemma ListIsValid(items: seq<Value>, depth: nat)
    requires ValidItems(items, depth + 1) && |items| <= MAX_COLLECTION_ELEMENTS && depth < MAX_NESTING_DEPTH
    ensures Valid(Array(items), depth)
  {
  }

  lemma OrderedAreCarriable(formats: seq<CaptureFormat>)
    requires forall f :: f in formats ==> CarriableFormat(f)
    ensures forall f :: f in Ordered(formats) ==> CarriableFormat(f)
  {
    OrderedIsSorted(formats);
    forall f | f in Ordered(formats) ensures CarriableFormat(f) {
      assert f in multiset(Ordered(formats)) && f in formats;
    }
  }

  lemma FormatListIsValid(formats: seq<CaptureFormat>, depth: nat)
    requires (forall f :: f in formats ==> CarriableFormat(f)) && |formats| <= MAX_COLLECTION_ELEMENTS
    requires depth + 1 < MAX_NESTING_DEPTH
    ensures Valid(Array(FormatValues(Ordered(formats))), depth)
  {
    OrderedIsSorted(formats);
    OrderedAreCarriable(formats);
    FormatsAreValid(Ordered(formats), depth + 1);
    ListIsValid(FormatValues(Ordered(formats)), depth);
  }

  lemma CameraStands(texts: seq<Entry>, formats: Value, depth: nat)
    requires Standing(texts, depth, 4) && Valid(formats, depth)
    ensures Standing(Put(texts, FORMATS, formats), depth, 5)
  {
    KeysAreValid();
    OneMoreEntry(texts, FORMATS, formats, depth, 4);
  }

  lemma CameraIsValid(c: Camera, depth: nat)
    requires CarriableCamera(c) && depth + 2 < MAX_NESTING_DEPTH
    ensures Valid(Map(CameraEntries(c)), depth)
  {
    TextsAreValid(c, depth + 1);
    FormatListIsValid(c.formats, depth + 1);
    CameraStands(CameraTexts(c), Array(FormatValues(Ordered(c.formats))), depth + 1);
    StandingIsValid(CameraEntries(c), depth);
  }

  lemma {:induction false} CamerasAreValid(cameras: seq<Camera>, depth: nat)
    requires (forall c :: c in cameras ==> CarriableCamera(c)) && depth + 2 < MAX_NESTING_DEPTH
    ensures ValidItems(CameraValues(cameras), depth)
  {
    if cameras != [] {
      var front, last := cameras[..|cameras| - 1], cameras[|cameras| - 1];
      CamerasAreValid(front, depth);
      CameraIsValid(last, depth);
      OneMoreItem(CameraValues(front), Map(CameraEntries(last)), depth);
    }
  }

  lemma {:induction false} CodecsAreValid(codecs: seq<seq<Byte>>, depth: nat)
    requires (forall c :: c in codecs ==> ValidText(c)) && depth <= MAX_NESTING_DEPTH
    ensures ValidItems(CodecValues(codecs), depth)
  {
    if codecs != [] {
      var front, last := codecs[..|codecs| - 1], codecs[|codecs| - 1];
      CodecsAreValid(front, depth);
      TextIsValid(last, depth);
      OneMoreItem(CodecValues(front), Text(last), depth);
    }
  }

  lemma FieldsStand(cameras: Value, codecs: Value)
    requires Valid(cameras, 1) && Valid(codecs, 1)
    ensures Standing(Put(Put([], CAMERAS, cameras), CODECS, codecs), 1, 2)
  {
    KeysAreValid();
    OneMoreEntry([], CAMERAS, cameras, 1, 0);
    OneMoreEntry(Put([], CAMERAS, cameras), CODECS, codecs, 1, 1);
  }

  lemma ListsAreValid(c: Caps)
    requires Carriable(c)
    ensures Valid(Array(CameraValues(c.cameras)), 1) && Valid(Array(CodecValues(c.codecs)), 1)
  {
    CamerasAreValid(c.cameras, 2);
    CodecsAreValid(c.codecs, 2);
    ListIsValid(CameraValues(c.cameras), 1);
    ListIsValid(CodecValues(c.codecs), 1);
  }

  lemma DescriptionIsValid(c: Caps)
    requires Carriable(c)
    ensures ValidMessage(Describe(c))
  {
    KeysAreValid();
    ListsAreValid(c);
    FieldsStand(Array(CameraValues(c.cameras)), Array(CodecValues(c.codecs)));
  }

  lemma NoTypeField(c: Caps)
    ensures !HasKey(Describe(c).fields, TYPE_KEY)
  {
    DescribeFinds(c);
    KeysDiffer();
    assert |TYPE_KEY| == 1;
  }

  /** What the PC reads of a tree that the phone sent. */
  function Received(c: Caps): Option<Caps> {
    match DecodeMessage(EncodeMessage(Describe(c)))
    case Err(_) => None
    case Ok(m) => ParseCaps(m)
  }

  /**
   * Through the message layer, CBOR and the payload cap, a capability tree arrives as it was sent
   * but for the order of its formats, exactly when it fits the cap and every part is acceptable.
   */
  lemma CapsRoundTrip(c: Caps)
    requires Carriable(c)
    ensures Received(c) == if |EncodeMessage(Describe(c))| <= MAX_PAYLOAD_BYTES && Fits(c)
                           then Some(Caps(SortedCameras(c.cameras), c.codecs)) else None
  {
    DescriptionIsValid(c);
    NoTypeField(c);
    MessageDecodes(Describe(c));
    EraseAbsent(Describe(c).fields, TYPE_KEY);
    CapsParse(c);
  }

  // ---------------------------------------------------------------------------
  // The loops of the program

  method ReadFormats(items: seq<Value>) returns (r: Option<seq<CaptureFormat>>)
    ensures r == ParseFormats(items)
  {
    var formats: seq<CaptureFormat> := [];
    for i := 0 to |items|
      invariant ParseFormats(items[..i]) == Some(formats)
    {
      assert items[..i + 1][..i] == items[..i];
      var format := ParseFormat(items[i]);
      if format == None {
        FormatsStayRefused(items, i + 1);
        return None;
      }
      formats := formats + [format.value];
    }
    assert items[..|items|] == items;
    r := Some(formats);
  }

  lemma {:induction false} FormatsStayRefused(items: seq<Value>, n: nat)
    requires n <= |items| && ParseFormats(items[..n]) == None
    ensures ParseFormats(items) == None
    decreases |items|
  {
    if n < |items| {
      assert items[..|items| - 1][..n] == items[..n];
      FormatsStayRefused(items[..|items| - 1], n);
    } else {
      assert items[..n] == items;
    }
  }

  method ReadCamera(v: Value) returns (r: Option<Camera>)
    ensures r == ParseCamera(v)
  {
    if !v.Map? || !OnlyFields(v.entries, {ID, NAME, POSITION, LENS, FORMATS}) { return None; }
    var id, name := TextAt(v.entries, ID), TextAt(v.entries, NAME);
    var position, lens := TextAt(v.entries, POSITION), TextAt(v.entries, LENS);
    if id == None || id.value == [] || name == None || position == None || lens == None { return None; }
    var items := ArrayAt(v.entries, FORMATS);
    if items == None { return None; }
    var formats := ReadFormats(items.value);
    if formats == None { return None; }
    r := Some(Camera(id.value, name.value, position.value, lens.value, formats.value));
  }

  method ReadCameras(items: seq<Value>) returns (r: Option<seq<Camera>>)
    ensures r == ParseCameras(items)
  {
    var cameras: seq<Camera> := [];
    for i := 0 to |items|
      invariant ParseCameras(items[..i]) == Some(cameras)
    {
      assert items[..i + 1][..i] == items[..i];
      var camera := ReadCamera(items[i]);
      if camera == None {
        CamerasStayRefused(items, i + 1);
        return None;
      }
      cameras := cameras + [camera.value];
    }
    assert items[..|items|] == items;
    r := Some(cameras);
  }

  lemma {:induction false} CamerasStayRefused(items: seq<Value>, n: nat)
    requires n <= |items| && ParseCameras(items[..n]) == None
    ensures ParseCameras(items) == None
    decreases |items|
  {
    if n < |items| {
      assert items[..|items| - 1][..n] == items[..n];
      CamerasStayRefused(items[..|items| - 1], n);
    } else {
      assert items[..n] == items;
    }
  }

  method ReadCodecs(items: seq<Value>) returns (r: Option<seq<seq<Byte>>>)
    ensures r == ParseCodecs(items)
  {
    var codecs: seq<seq<Byte>> := [];
    for i := 0 to |items|
      invariant ParseCodecs(items[..i]) == Some(codecs)
    {
      assert items[..i + 1][..i] == items[..i];
      if !items[i].Text? || !KnownCodec(items[i].text) {
        CodecsStayRefused(items, i + 1);
        return None;
      }
      codecs := codecs + [items[i].text];
    }
    assert items[..|items|] == items;
    r := Some(codecs);
  }

  lemma {:induction false} CodecsStayRefused(items: seq<Value>, n: nat)
    requires n <= |items| && ParseCodecs(items[..n]) == None
    ensures ParseCodecs(items) == None
    decreases |items|
  {
    if n < |items| {
      assert items[..|items| - 1][..n] == items[..n];
      CodecsStayRefused(items[..|items| - 1], n);
    } else {
      assert items[..n] == items;
    }
  }

  /** parseCaps. */
  method ReadCaps(m: Message) returns (r: Option<Caps>)
    ensures r == ParseCaps(m)
  {
    if m.kind != CAPS || !OnlyFields(m.fields, {CAMERAS, CODECS}) { return None; }
    var items := ArrayAt(m.fields, CAMERAS);
    if items == None { return None; }
    var cameras := ReadCameras(items.value);
    if cameras == None { return None; }
    var names := ArrayAt(m.fields, CODECS);
    if names == None { return None; }
    var codecs := ReadCodecs(names.value);
    if codecs == None { return None; }
    r := Some(Caps(cameras.value, codecs.value));
  }

  method BuildFormats(formats: seq<CaptureFormat>) returns (items: seq<Value>)
    ensures items == FormatValues(Ordered(formats))
  {
    var a := new CaptureFormat[|formats|](i requires 0 <= i < |formats| => formats[i]);
    assert a[..] == formats;
    SortFormats(a);
    ghost var sorted := Ordered(formats);
    items := [];
    for i := 0 to a.Length
      invariant a[..] == sorted && items == FormatValues(sorted[..i])
    {
      assert sorted[..i + 1][..i] == sorted[..i] && a[i] == sorted[i];
      items := items + [FormatValue(a[i])];
    }
    assert sorted[..a.Length] == sorted;
  }

  method BuildCamera(c: Camera) returns (entries: seq<Entry>)
    ensures entries == CameraEntries(c)
  {
    entries := Put([], ID, Text(c.id));
    entries := Put(entries, NAME, Text(c.name));
    entries := Put(entries, POSITION, Text(c.position));
    entries := Put(entries, LENS, Text(c.lens));
    var formats := BuildFormats(c.formats);
    entries := Put(entries, FORMATS, Array(formats));
  }

  method BuildCodecs(codecs: seq<seq<Byte>>) returns (items: seq<Value>)
    ensures items == CodecValues(codecs)
  {
    items := [];
    for i := 0 to |codecs|
      invariant items == CodecValues(codecs[..i])
    {
      assert codecs[..i + 1][..i] == codecs[..i];
      items := items + [Text(codecs[i])];
    }
    assert codecs[..|codecs|] == codecs;
  }

  method BuildCameras(cameras: seq<Camera>) returns (items: seq<Value>)
    ensures items == CameraValues(cameras)
  {
    items := [];
    for i := 0 to |cameras|
      invariant items == CameraValues(cameras[..i])
    {
      assert cameras[..i + 1][..i] == cameras[..i];
      var entries := BuildCamera(cameras[i]);
      items := items + [Map(entries)];
    }
    assert cameras[..|cameras|] == cameras;
  }

  /** capabilities. */
  method BuildCaps(c: Caps) returns (m: Message)
    ensures m == Describe(c)
  {
    var cameras := BuildCameras(c.cameras);
    var codecs := BuildCodecs(c.codecs);
    m := Message(CAPS, Put(Put([], CAMERAS, Array(cameras)), CODECS, Array(codecs)));
  }
}
