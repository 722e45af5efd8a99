/** A rollout file: a header line and a body (backend/guardian.py, backend/remote_sync.py). */
module RolloutFile {
  import opened Common
  import opened TurnScan

  type Bytes = seq<Byte>

  const SPACE: Byte := 32

  /** Where the first line ends, its newline included. */
  function LineEnd(file: Bytes): (n: nat)
    ensures n <= |file|
  {
    if file == [] then 0 else if file[0] == NEWLINE then 1 else 1 + LineEnd(file[1..])
  }

  /** `readline()`. */
  function Head(file: Bytes): Bytes {
    file[..LineEnd(file)]
  }

  /** What follows the first line. */
  function Body(file: Bytes): Bytes {
    file[LineEnd(file)..]
  }

  /** A line: no newline but at its end. */
  predicate IsLine(line: Bytes) {
    forall i :: 0 <= i < |line| - 1 ==> line[i] != NEWLINE
  }

  predicate Ended(line: Bytes) {
    line != [] && Final(line) == NEWLINE
  }

  /** The first line and the body of a file are determined by cutting it after a line. */
  lemma {:induction false} CutAt(line: Bytes, rest: Bytes)
    requires IsLine(line) && (Ended(line) || rest == [])
    ensures Head(line + rest) == line && Body(line + rest) == rest
    decreases |line|
  {
    if line != [] {
      var file := line + rest;
      assert file[1..] == line[1..] + rest;
      if |line| > 1 {
        assert Ended(line) ==> Ended(line[1..]);
        CutAt(line[1..], rest);
        assert Head(line[1..] + rest) == line[1..];
      } else if line[0] != NEWLINE {
        assert file[1..] == [];
      }
      assert LineEnd(file) == |line|;
    }
  }

  lemma {:induction false} HeadIsLine(file: Bytes)
    ensures Head(file) + Body(file) == file
    ensures IsLine(Head(file)) && (Ended(Head(file)) || Body(file) == [])
  {
    if file != [] && file[0] != NEWLINE {
      HeadIsLine(file[1..]);
      assert Head(file) == [file[0]] + Head(file[1..]);
      assert Body(file) == Body(file[1..]);
    }
  }

  predicate Prefix(a: Bytes, b: Bytes) {
    |a| <= |b| && b[..|a|] == a
  }
}

/** Rewriting the provider in rollout headers. */
module RolloutRewrite {
  import opened Common
  import opened TurnScan
  import opened RolloutFile

  /** `model_provider`: a string, or anything else with its `str(value or "")`. */
  datatype RawProvider = Text(name: string) | Other(rendering: string)

  function Rendered(p: RawProvider): string {
    if p.Text? then p.name else p.rendering
  }

  datatype Header = Header(provider: RawProvider, rest: string)

  /** A first line that is `session_meta` with an object payload, or anything else. */
  datatype Decoded = Meta(header: Header) | NotMeta

  datatype Codec = Codec(decode: Bytes -> Decoded, encode: Header -> Bytes)

  function Retargeted(h: Header, target: string): Header {
    h.(provider := Text(target))
  }

  predicate Blank(s: Bytes) {
    forall b <- s :: b == SPACE || b == NEWLINE
  }

  /** Encoded headers are one line, and decode again with white space after them. */
  ghost predicate Lawful(c: Codec, target: string) {
    forall line :: c.decode(line).Meta? ==> Faithful(c, Retargeted(c.decode(line).header, target))
  }

  ghost predicate Faithful(c: Codec, h: Header) {
    && NEWLINE !in c.encode(h)
    && forall blank | Blank(blank) :: c.decode(c.encode(h) + blank) == Meta(h)
  }

  // ------------------------------------------------------------ the rewritten file

  function Capacity(first: Bytes): (n: nat)
    ensures n <= |first|
  {
    if Ended(first) then |first| - 1 else |first|
  }

  function Spaces(n: nat): Bytes {
    seq(n, _ => SPACE)
  }

  function Padded(first: Bytes, json: Bytes): (r: Bytes)
    requires |json| <= Capacity(first)
    ensures |r| == |first|
  {
    json + Spaces(Capacity(first) - |json|) + (if Ended(first) then [NEWLINE] else [])
  }

  /** The provider is not the target yet. */
  predicate Changes(c: Codec, target: string, file: Bytes) {
    var d := c.decode(Head(file));
    file != [] && d.Meta? && d.header.provider != Text(target)
  }

  function NewHeader(c: Codec, target: string, file: Bytes): Bytes
    requires Changes(c, target, file)
  {
    c.encode(Retargeted(c.decode(Head(file)).header, target))
  }

  predicate Fits(c: Codec, target: string, file: Bytes) {
    Changes(c, target, file) ==> |NewHeader(c, target, file)| <= Capacity(Head(file))
  }

  function Rewritten(c: Codec, target: string, file: Bytes): Bytes {
    if !Changes(c, target, file) then file
    else
      var json := NewHeader(c, target, file);
      if |json| <= Capacity(Head(file)) then Padded(Head(file), json) + Body(file)
      else json + [NEWLINE] + Body(file)
  }

  /** Any prefix of the padded header over the old one is still one line. */
  lemma TornIsLine(first: Bytes, json: Bytes, k: nat)
    requires IsLine(first) && NEWLINE !in json && |json| <= Capacity(first) && k <= |first|
    ensures var torn := Padded(first, json)[..k] + first[k..];
            IsLine(torn) && |torn| == |first| && (Ended(torn) <==> Ended(first))
  {
    var padded := Padded(first, json);
    assert forall i :: 0 <= i < |json| ==> json[i] in json;
    assert forall i :: 0 <= i < Capacity(first) ==> padded[i] != NEWLINE;
    assert Ended(first) ==> Final(padded) == NEWLINE;
    if first != [] && !Ended(first) {
      assert padded[|first| - 1] != NEWLINE;
    }
  }

  lemma HeaderIsLawful(c: Codec, target: string, file: Bytes)
    requires Lawful(c, target) && Changes(c, target, file)
    ensures Faithful(c, Retargeted(c.decode(Head(file)).header, target))
  {
  }

  /** The parts of the rewritten file. */
  lemma RewrittenParts(c: Codec, target: string, file: Bytes)
    requires Lawful(c, target) && Changes(c, target, file)
    ensures var json := NewHeader(c, target, file);
            && Body(Rewritten(c, target, file)) == Body(file)
            && Head(Rewritten(c, target, file))
               == if |json| <= Capacity(Head(file)) then Padded(Head(file), json) else json + [NEWLINE]
  {
    HeaderIsLawful(c, target, file);
    HeadIsLine(file);
    hide Lawful, Head, Body;
    var json, first := NewHeader(c, target, file), Head(file);
    if |json| <= Capacity(first) {
      var padded := Padded(first, json);
      TornIsLine(first, json, |first|);
      assert padded[..|first|] + first[|first|..] == padded;
      CutAt(padded, Body(file));
    } else {
      assert forall i :: 0 <= i < |json| ==> json[i] in json;
      CutAt(json + [NEWLINE], Body(file));
    }
  }

  /** Every body survives byte for byte. */
  lemma RewriteKeepsBody(c: Codec, target: string, file: Bytes)
    requires Lawful(c, target)
    ensures Body(Rewritten(c, target, file)) == Body(file)
  {
    if Changes(c, target, file) {
      RewrittenParts(c, target, file);
    }
  }

  /** The provider becomes the target; nothing else in the header changes. */
  lemma RewriteSetsProvider(c: Codec, target: string, file: Bytes)
    requires Lawful(c, target) && file != [] && c.decode(Head(file)).Meta?
    ensures Rewritten(c, target, file) != []
    ensures c.decode(Head(Rewritten(c, target, file))) == Meta(Header(Text(target), c.decode(Head(file)).header.rest))
  {
    if Changes(c, target, file) {
      RewrittenParts(c, target, file);
      HeaderIsLawful(c, target, file);
      var json, first := NewHeader(c, target, file), Head(file);
      hide Lawful, Head, Body;
      if |json| <= Capacity(first) {
        var blank := Spaces(Capacity(first) - |json|) + (if Ended(first) then [NEWLINE] else []);
        assert Blank(blank);
        assert Padded(first, json) == json + blank;
      } else {
        assert Blank([NEWLINE]);
      }
    }
  }

  /** Exactly the session headers that name another provider are rewritten. */
  lemma RewriteTouches(c: Codec, target: string, file: Bytes)
    requires Lawful(c, target)
    ensures Rewritten(c, target, file) == file
            <==> file == [] || c.decode(Head(file)).NotMeta? || c.decode(Head(file)).header.provider == Text(target)
  {
    if Changes(c, target, file) {
      RewriteSetsProvider(c, target, file);
      hide Lawful, Head;
    }
  }

  /** A second run finds nothing to do. */
  lemma RewriteIsIdempotent(c: Codec, target: string, file: Bytes)
    requires Lawful(c, target)
    ensures !Changes(c, target, Rewritten(c, target, file))
    ensures Rewritten(c, target, Rewritten(c, target, file)) == Rewritten(c, target, file)
  {
    if Changes(c, target, file) {
      RewriteSetsProvider(c, target, file);
    }
  }

  /** Offsets into the body stay valid exactly when the new header fits into the old line. */
  lemma OffsetsKeptIffFits(c: Codec, target: string, file: Bytes)
    requires Lawful(c, target)
    ensures |Rewritten(c, target, file)| == |file| <==> Fits(c, target, file)
    ensures |Rewritten(c, target, file)| == |file| ==>
              Rewritten(c, target, file)[LineEnd(file)..] == file[LineEnd(file)..]
  {
    HeadIsLine(file);
  }

  /** A crash inside the in-place write leaves the body alone. */
  lemma TornWriteKeepsBody(c: Codec, target: string, file: Bytes, k: nat)
    requires Lawful(c, target) && Changes(c, target, file) && Fits(c, target, file) && k <= |Head(file)|
    ensures Body(Rewritten(c, target, file)[..k] + file[k..]) == Body(file)
  {
    HeaderIsLawful(c, target, file);
    HeadIsLine(file);
    var first, json := Head(file), NewHeader(c, target, file);
    TornIsLine(first, json, k);
    var torn := Padded(first, json)[..k] + first[k..];
    assert Rewritten(c, target, file)[..k] + file[k..] == torn + Body(file) by {
      assert file == first + Body(file);
    }
    CutAt(torn, Body(file));
  }

  // ------------------------------------------------------------------- preflight

  /** What the preflight accepts of a protected rollout: it compares the rendering of the provider. */
  predicate Passes(c: Codec, target: string, file: Bytes) {
    var d := c.decode(Head(file));
    d.Meta? ==> Rendered(d.header.provider) == target
                || |c.encode(Retargeted(d.header, target))| <= Capacity(Head(file))
  }

  /** A provider that is no string but renders as the target: the preflight overlooks its growth. */
  predicate Overlooked(c: Codec, target: string, file: Bytes) {
    var d := c.decode(Head(file));
    && file != [] && d.Meta? && d.header.provider == Other(target)
    && |c.encode(Retargeted(d.header, target))| > Capacity(Head(file))
  }

  /** After the preflight a protected rollout keeps its offsets unless it was overlooked. */
  lemma PreflightProtects(c: Codec, target: string, file: Bytes)
    requires Lawful(c, target) && Passes(c, target, file)
    ensures |Rewritten(c, target, file)| == |file| <==> !Overlooked(c, target, file)
  {
    OffsetsKeptIffFits(c, target, file);
  }

  /** The preflight refuses a rollout exactly if rewriting it would move its body, but for those it overlooks. */
  lemma PreflightIsExact(c: Codec, target: string, file: Bytes)
    requires Lawful(c, target) && file != []
    ensures Passes(c, target, file) <==> |Rewritten(c, target, file)| == |file| || Overlooked(c, target, file)
    ensures |Rewritten(c, target, file)| >= |file|
  {
    OffsetsKeptIffFits(c, target, file);
    HeadIsLine(file);
  }

  // ------------------------------------------------------- a header that is overlooked

  function Ascii(text: string): Bytes {
    seq(|text|, i requires 0 <= i < |text| => if text[i] as int < 256 then text[i] as int else 63)
  }

  function Chars(bytes: Bytes): string {
    seq(|bytes|, i requires 0 <= i < |bytes| => bytes[i] as char)
  }

  /** A JSON string without escapes. */
  predicate Plain(text: string) {
    forall c <- text :: ' ' <= c <= '~' && c != '"' && c != '\\'
  }

  predicate PlainBytes(bytes: Bytes) {
    forall b <- bytes :: 32 <= b <= 126 && b != 34 && b != 92
  }

  predicate Digits(bytes: Bytes) {
    bytes != [] && forall b <- bytes :: 48 <= b <= 57
  }

  function Trimmed(line: Bytes): Bytes {
    if line != [] && (Final(line) == SPACE || Final(line) == NEWLINE) then Trimmed(line[..|line| - 1]) else line
  }

  lemma {:induction false} TrimmedBlank(line: Bytes, blank: Bytes)
    requires Blank(blank)
    ensures Trimmed(line + blank) == Trimmed(line)
    decreases |blank|
  {
    if blank == [] {
      assert line + blank == line;
    } else {
      var shorter := blank[..|blank| - 1];
      assert Final(line + blank) == Final(blank) && Final(blank) in blank;
      assert forall b <- shorter :: b in blank;
      assert (line + blank)[..|line + blank| - 1] == line + shorter;
      TrimmedBlank(line, shorter);
    }
  }

  /** The JSON text of a provider: a quoted name, or the rendering of a number. */
  function Shown(p: RawProvider): Bytes {
    if p.Text? then [34] + Ascii(p.name) + [34] else Ascii(p.rendering)
  }

  function ReadProvider(value: Bytes): Option<RawProvider> {
    if |value| >= 2 && value[0] == 34 && Final(value) == 34 && PlainBytes(value[1..|value| - 1]) then
      Some(Text(Chars(value[1..|value| - 1])))
    else if Digits(value) then Some(Other(Chars(value)))
    else None
  }

  /** The value between `front` and two closing braces. */
  function Between(front: Bytes, line: Bytes): Option<Bytes> {
    var t := Trimmed(line);
    if |t| >= |front| + 2 && t[..|front|] == front && t[|t| - 2..] == [125, 125] then Some(t[|front|..|t| - 2]) else None
  }

  /** Session headers that end in their provider, a string or a number, after the text `front`. */
  function HeaderCodec(front: Bytes): Codec {
    Codec(
      line =>
        var value := Between(front, line);
        var p := if value.Some? then ReadProvider(value.value) else None;
        if p.Some? then Meta(Header(p.value, "")) else NotMeta,
      (h: Header) => front + Shown(h.provider) + [125, 125])
  }

  lemma BetweenShown(front: Bytes, value: Bytes, blank: Bytes)
    requires Blank(blank)
    ensures Between(front, front + value + [125, 125] + blank) == Some(value)
  {
    var text := front + value + [125, 125];
    TrimmedBlank(text, blank);
    assert Final(text) == 125 && Trimmed(text) == text;
    assert text[..|front|] == front && text[|text| - 2..] == [125, 125];
    assert text[|front|..|text| - 2] == value;
  }

  lemma AsciiChars(text: string)
    requires Plain(text)
    ensures PlainBytes(Ascii(text)) && Chars(Ascii(text)) == text
  {
    forall i | 0 <= i < |text|
      ensures Ascii(text)[i] == text[i] as int && 32 <= Ascii(text)[i] <= 126 && Ascii(text)[i] != 34 && Ascii(text)[i] != 92
    {
      assert text[i] in text;
    }
  }

  lemma ReadShown(name: string)
    requires Plain(name)
    ensures ReadProvider(Shown(Text(name))) == Some(Text(name))
  {
    AsciiChars(name);
    hide PlainBytes, Plain, Digits;
    var value, inner := Shown(Text(name)), Ascii(name);
    assert value[1..|value| - 1] == inner && Final(value) == 34 && value[0] == 34;
  }

  lemma ShownIsLine(front: Bytes, h: Header)
    requires NEWLINE !in front && h.provider.Text? && Plain(h.provider.name)
    ensures NEWLINE !in HeaderCodec(front).encode(h)
  {
    AsciiChars(h.provider.name);
  }

  /** Only providers differ among the headers of the codec, and its own text is read back. */
  lemma DecodeShown(front: Bytes, p: RawProvider, blank: Bytes)
    requires Blank(blank) && ReadProvider(Shown(p)) == Some(p)
    ensures HeaderCodec(front).decode(HeaderCodec(front).encode(Header(p, "")) + blank) == Meta(Header(p, ""))
  {
    hide ReadProvider, Between, Shown;
    BetweenShown(front, Shown(p), blank);
  }

  lemma HeaderCodecIsLawful(front: Bytes, target: string)
    requires NEWLINE !in front && Plain(target)
    ensures Lawful(HeaderCodec(front), target)
  {
    var c, h := HeaderCodec(front), Header(Text(target), "");
    forall line | c.decode(line).Meta?
      ensures Retargeted(c.decode(line).header, target) == h
    {
    }
    hide HeaderCodec, Plain;
    ReadShown(target);
    ShownIsLine(front, h);
    forall blank | Blank(blank)
      ensures c.decode(c.encode(h) + blank) == Meta(h)
    {
      DecodeShown(front, Text(target), blank);
    }
  }

  /** The header of a protected rollout, up to its provider. */
  const SESSION_FRONT: string :=
    "{\"type\":" + "\"session_meta\"," + "\"payload\":{" + "\"id\":\"t\"," + "\"history_mode\":"
    + "\"paginated\"," + "\"model_provider\":"

  /** A provider that is a number: two bytes more once it is a string. */
  lemma NumberOutgrows(front: Bytes, target: string)
    requires NEWLINE !in front && Plain(target) && Digits(Ascii(target))
    ensures var c, file := HeaderCodec(front), front + Ascii(target) + [125, 125] + [NEWLINE];
            && c.decode(Head(file)) == Meta(Header(Other(target), ""))
            && Passes(c, target, file) && |Rewritten(c, target, file)| > |file|
  {
    var c, line := HeaderCodec(front), front + Ascii(target) + [125, 125] + [NEWLINE];
    AsciiChars(target);
    HeaderCodecIsLawful(front, target);
    NumberIsLine(front, Ascii(target));
    CutAt(line, []);
    assert line + [] == line;
    NumberDecodes(front, target);
    EncodeShows(front, Header(Text(target), ""));
    hide HeaderCodec, Lawful, Head, Plain, Digits, Ascii;
    assert Capacity(line) == |line| - 1;
    RewrittenParts(c, target, line);
    OffsetsKeptIffFits(c, target, line);
  }

  lemma NumberDecodes(front: Bytes, target: string)
    requires Plain(target) && Digits(Ascii(target))
    ensures HeaderCodec(front).decode(front + Ascii(target) + [125, 125] + [NEWLINE]) == Meta(Header(Other(target), ""))
  {
    AsciiChars(target);
    assert ReadProvider(Ascii(target)) == Some(Other(target)) by {
      assert Ascii(target)[0] in Ascii(target);
    }
    DecodeShown(front, Other(target), [NEWLINE]);
  }

  lemma EncodeShows(front: Bytes, h: Header)
    ensures HeaderCodec(front).encode(h) == front + Shown(h.provider) + [125, 125]
  {
  }

  lemma NumberIsLine(front: Bytes, digits: Bytes)
    requires NEWLINE !in front && NEWLINE !in digits
    ensures IsLine(front + digits + [125, 125] + [NEWLINE]) && Ended(front + digits + [125, 125] + [NEWLINE])
  {
    assert forall i :: 0 <= i < |front| ==> front[i] in front;
    assert forall i :: 0 <= i < |digits| ==> digits[i] in digits;
  }

  /**
   A session header with the number 5 as its provider, and the target "5", as a configuration that
   names it gives to the repair of the shared history: the preflight passes and the file grows.
   */
  lemma OverlookedHappens()
    ensures var front := Ascii(SESSION_FRONT);
            var c, file := HeaderCodec(front), front + Ascii("5") + [125, 125] + [NEWLINE];
            && Lawful(c, "5") && ReadFrom(c, Entry("rollout", "t", "5"), map["rollout" := file])
            && Passes(c, "5", file) && |Rewritten(c, "5", file)| > |file|
  {
    var front := Ascii(SESSION_FRONT);
    assert NEWLINE !in front by {
      assert '\n' !in "{\"type\":" && '\n' !in "\"session_meta\"," && '\n' !in "\"payload\":{" && '\n' !in "\"id\":\"t\",";
      assert '\n' !in "\"history_mode\":" && '\n' !in "\"paginated\"," && '\n' !in "\"model_provider\":";
    }
    assert Plain("5") && Ascii("5") == [53];
    HeaderCodecIsLawful(front, "5");
    NumberOutgrows(front, "5");
  }

  // ------------------------------------------------------------------ the folder

  type Path = string

  datatype Entry = Entry(path: Path, thread: string, provider: string)

  /** The entry was read from this file. */
  predicate ReadFrom(c: Codec, e: Entry, files: map<Path, Bytes>) {
    && e.path in files && files[e.path] != []
    && var d := c.decode(Head(files[e.path])); d.Meta? && e.provider == Rendered(d.header.provider)
  }

  predicate Inventoried(c: Codec, entries: seq<Entry>, files: map<Path, Bytes>) {
    forall e <- entries :: ReadFrom(c, e, files)
  }

  predicate PreflightPasses(c: Codec, target: string, entries: seq<Entry>, protected: set<string>, files: map<Path, Bytes>)
    requires Inventoried(c, entries, files)
  {
    forall e <- entries :: ReadFrom(c, e, files) && (e.thread in protected ==> Passes(c, target, files[e.path]))
  }

  function Paths(entries: seq<Entry>): set<Path> {
    set e | e in entries :: e.path
  }

  function RewrittenFiles(c: Codec, target: string, paths: set<Path>, files: map<Path, Bytes>): map<Path, Bytes> {
    map p | p in files :: if p in paths then Rewritten(c, target, files[p]) else files[p]
  }

  function ChangedPaths(c: Codec, target: string, paths: set<Path>, files: map<Path, Bytes>): set<Path> {
    set p | p in paths && p in files && Changes(c, target, files[p])
  }

  /** Writing at offset 0 over what is there. */
  function Overwritten(file: Bytes, output: Bytes): Bytes {
    if |output| <= |file| then output + file[|output|..] else output
  }

  class RolloutFolder {
    var files: map<Path, Bytes>

    constructor (files: map<Path, Bytes>)
      ensures this.files == files
    {
      this.files := files;
    }

    /** `_require_history_lineage`; `ready` is the verdict on the lineage. */
    method RequireLineage(c: Codec, target: string, ready: bool, entries: seq<Entry>, protected: set<string>)
      returns (accepted: bool)
      requires Inventoried(c, entries, files)
      ensures accepted <==> ready && PreflightPasses(c, target, entries, protected, files)
    {
      if !ready {
        return false;
      }
      for i := 0 to |entries|
        invariant PreflightPasses(c, target, entries[..i], protected, files)
      {
        var e := entries[i];
        assert ReadFrom(c, e, files);
        assert entries[..i + 1] == entries[..i] + [e];
        if e.thread in protected && e.provider != target {
          var first := Head(files[e.path]);
          var json := c.encode(Retargeted(c.decode(first).header, target));
          if |json| > Capacity(first) {
            return false;
          }
        }
      }
      assert entries[..|entries|] == entries;
      return true;
    }

    /** One file of `_rewrite_rollouts`. */
    method RewriteOne(c: Codec, target: string, path: Path) returns (changed: bool)
      requires path in files
      modifies this`files
      ensures files == old(files)[path := Rewritten(c, target, old(files[path]))]
      ensures changed == Changes(c, target, old(files[path]))
    {
      var file := files[path];
      var first := Head(file);
      HeadIsLine(file);
      assert files == files[path := file];
      if first == [] {
        return false;
      }
      var d := c.decode(first);
      if d.NotMeta? || d.header.provider == Text(target) {
        return false;
      }
      var json := c.encode(Retargeted(d.header, target));
      if |json| <= Capacity(first) {
        var padded := Padded(first, json);
        assert Overwritten(file, padded) == padded + Body(file);
        files := files[path := Overwritten(file, padded)];
      } else {
        files := files[path := json + [NEWLINE] + Body(file)];
      }
      return true;
    }

    /**
     `_rewrite_rollouts`: refused without touching a file, or every inventoried rollout is rewritten,
     no other file is, and the number of changed files is reported.
     */
    method RewriteRollouts(c: Codec, target: string, ready: bool, entries: seq<Entry>, protected: set<string>)
      returns (changed: Option<nat>)
      requires Lawful(c, target) && Inventoried(c, entries, files)
      modifies this`files
      ensures changed.Some? <==> ready && PreflightPasses(c, target, entries, protected, old(files))
      ensures changed.None? ==> files == old(files)
      ensures changed.Some? ==>
                && files == RewrittenFiles(c, target, Paths(entries), old(files))
                && changed.value == |ChangedPaths(c, target, Paths(entries), old(files))|
    {
      var accepted := RequireLineage(c, target, ready, entries, protected);
      if !accepted {
        return None;
      }
      var count := RewriteAll(c, target, entries);
      return Some(count);
    }

    /** The loop over the files. */
    method RewriteAll(c: Codec, target: string, entries: seq<Entry>) returns (count: nat)
      requires Lawful(c, target) && Inventoried(c, entries, files)
      modifies this`files
      ensures files == RewrittenFiles(c, target, Paths(entries), old(files))
      ensures count == |ChangedPaths(c, target, Paths(entries), old(files))|
    {
      hide Rewritten, Changes, Lawful, ChangedPaths, RewrittenFiles, Paths, ReadFrom;
      ghost var before := files;
      count := 0;
      NothingRewritten(c, target, before);
      for i := 0 to |entries|
        invariant files == RewrittenFiles(c, target, Paths(entries[..i]), before)
        invariant count == |ChangedPaths(c, target, Paths(entries[..i]), before)|
      {
        var path := entries[i].path;
        EntryIsThere(c, entries, before, i);
        PathsOneMore(entries[..i], entries[i]);
        FilesOneMore(c, target, Paths(entries[..i]), path, before);
        CountOneMore(c, target, Paths(entries[..i]), path, before);
        assert entries[..i + 1] == entries[..i] + [entries[i]];
        KeysStay(c, target, Paths(entries[..i]), before);
        var did := RewriteOne(c, target, path);
        if did {
          count := count + 1;
        }
      }
      assert entries[..|entries|] == entries;
    }

    /** `_snapshot_rollout_first_lines`. */
    method Snapshot(order: seq<Path>) returns (lines: seq<(Path, Bytes)>)
      requires forall p <- order :: p in files
      ensures lines == SnapshotOf(files, order)
    {
      lines := [];
      for i := 0 to |order|
        invariant lines == SnapshotOf(files, order[..i])
      {
        assert order[..i + 1][..i] == order[..i];
        lines := lines + [(order[i], Head(files[order[i]]))];
      }
      assert order[..|order|] == order;
    }

    /** `_restore_rollout_first_lines`. */
    method RestoreFirstLines(lines: seq<(Path, Bytes)>)
      modifies this`files
      ensures files == Restored(old(files), lines)
    {
      for i := 0 to |lines|
        invariant files == Restored(old(files), lines[..i])
      {
        assert lines[..i + 1][..i] == lines[..i];
        var (path, first) := lines[i];
        if path in files {
          files := files[path := first + Body(files[path])];
        }
      }
      assert lines[..|lines|] == lines;
    }
  }

  lemma NothingRewritten(c: Codec, target: string, files: map<Path, Bytes>)
    ensures files == RewrittenFiles(c, target, Paths([]), files)
    ensures |ChangedPaths(c, target, Paths([]), files)| == 0
  {
    assert ChangedPaths(c, target, Paths([]), files) == {};
  }

  lemma EntryIsThere(c: Codec, entries: seq<Entry>, files: map<Path, Bytes>, i: nat)
    requires Inventoried(c, entries, files) && i < |entries|
    ensures entries[i].path in files
  {
    assert ReadFrom(c, entries[i], files);
  }

  lemma KeysStay(c: Codec, target: string, paths: set<Path>, files: map<Path, Bytes>)
    ensures RewrittenFiles(c, target, paths, files).Keys == files.Keys
  {
  }

  lemma PathsOneMore(seen: seq<Entry>, e: Entry)
    ensures Paths(seen + [e]) == Paths(seen) + {e.path}
  {
    assert forall f :: f in seen + [e] <==> f in seen || f == e;
  }

  /** One more path, whether or not it was there before. */
  lemma FilesOneMore(c: Codec, target: string, done: set<Path>, path: Path, files: map<Path, Bytes>)
    requires Lawful(c, target) && path in files
    ensures var now := RewrittenFiles(c, target, done, files);
            RewrittenFiles(c, target, done + {path}, files) == now[path := Rewritten(c, target, now[path])]
  {
    RewriteIsIdempotent(c, target, files[path]);
    hide Rewritten, Changes, Lawful;
  }

  lemma CountOneMore(c: Codec, target: string, done: set<Path>, path: Path, files: map<Path, Bytes>)
    requires Lawful(c, target) && path in files
    ensures |ChangedPaths(c, target, done + {path}, files)|
            == |ChangedPaths(c, target, done, files)|
               + (if Changes(c, target, RewrittenFiles(c, target, done, files)[path]) then 1 else 0)
  {
    RewriteIsIdempotent(c, target, files[path]);
    hide Rewritten, Changes, Lawful;
    assert RewrittenFiles(c, target, done, files)[path]
        == if path in done then Rewritten(c, target, files[path]) else files[path];
    hide RewrittenFiles;
    PathsCount(c, target, done, path, files);
  }

  lemma PathsCount(c: Codec, target: string, done: set<Path>, path: Path, files: map<Path, Bytes>)
    requires path in files
    ensures |ChangedPaths(c, target, done + {path}, files)|
            == |ChangedPaths(c, target, done, files)|
               + (if path !in done && Changes(c, target, files[path]) then 1 else 0)
  {
    hide Changes;
    var before, after := ChangedPaths(c, target, done, files), ChangedPaths(c, target, done + {path}, files);
    assert path !in done ==> path !in before;
    assert after == if path !in done && Changes(c, target, files[path]) then before + {path} else before;
  }

  /** What one inventoried rollout becomes in a run that is not refused. */
  lemma RunOutcome(c: Codec, target: string, entries: seq<Entry>, protected: set<string>, files: map<Path, Bytes>, e: Entry)
    requires Lawful(c, target) && Inventoried(c, entries, files) && e in entries
    requires PreflightPasses(c, target, entries, protected, files)
    ensures e.path in RewrittenFiles(c, target, Paths(entries), files)
    ensures var before, after := files[e.path], RewrittenFiles(c, target, Paths(entries), files)[e.path];
            && Body(after) == Body(before)
            && c.decode(Head(after)) == Meta(Header(Text(target), c.decode(Head(before)).header.rest))
            && (e.thread in protected ==> (|after| == |before| <==> !Overlooked(c, target, before)))
  {
    assert ReadFrom(c, e, files);
    RewriteKeepsBody(c, target, files[e.path]);
    RewriteSetsProvider(c, target, files[e.path]);
    if e.thread in protected {
      PreflightProtects(c, target, files[e.path]);
    }
    hide Rewritten, Lawful, Overlooked, Head, Body;
  }

  /** Which runs are refused, and what a run that is not refused leaves alone and counts. */
  lemma RunExtent(c: Codec, target: string, entries: seq<Entry>, protected: set<string>, files: map<Path, Bytes>)
    requires Lawful(c, target) && Inventoried(c, entries, files)
    ensures var now := RewrittenFiles(c, target, Paths(entries), files);
            && (PreflightPasses(c, target, entries, protected, files) <==>
                  forall e <- entries :: e.thread in protected && |Rewritten(c, target, files[e.path])| > |files[e.path]| ==>
                    Overlooked(c, target, files[e.path]))
            && now.Keys == files.Keys && (forall p <- files :: (forall e <- entries :: e.path != p) ==> now[p] == files[p])
            && |ChangedPaths(c, target, Paths(entries), files)| == |set p | p in files && now[p] != files[p]|
  {
    var now := RewrittenFiles(c, target, Paths(entries), files);
    forall p | p in files && files[p] != []
      ensures Passes(c, target, files[p]) <==> |Rewritten(c, target, files[p])| == |files[p]| || Overlooked(c, target, files[p])
      ensures |Rewritten(c, target, files[p])| >= |files[p]|
    {
      PreflightIsExact(c, target, files[p]);
    }
    forall p | p in files
      ensures Changes(c, target, files[p]) <==> Rewritten(c, target, files[p]) != files[p]
    {
      RewriteTouches(c, target, files[p]);
    }
    hide Rewritten, Lawful, Overlooked, Changes, Passes;
    assert forall e <- entries :: ReadFrom(c, e, files);
    assert ChangedPaths(c, target, Paths(entries), files) == set p | p in files && now[p] != files[p];
  }

  /** A second run, over any inventory of the same files, changes none. */
  lemma SecondRun(c: Codec, target: string, paths: set<Path>, files: map<Path, Bytes>)
    requires Lawful(c, target)
    ensures var now := RewrittenFiles(c, target, paths, files);
            && ChangedPaths(c, target, paths, now) == {}
            && RewrittenFiles(c, target, paths, now) == now
  {
    forall p | p in files
      ensures !Changes(c, target, Rewritten(c, target, files[p]))
      ensures Rewritten(c, target, Rewritten(c, target, files[p])) == Rewritten(c, target, files[p])
    {
      RewriteIsIdempotent(c, target, files[p]);
    }
    hide Rewritten, Changes, Lawful;
  }

  // ------------------------------------------------------- restoring first lines

  function SnapshotOf(files: map<Path, Bytes>, order: seq<Path>): (r: seq<(Path, Bytes)>)
    requires forall p <- order :: p in files
    ensures |r| == |order|
  {
    if order == [] then []
    else SnapshotOf(files, order[..|order| - 1]) + [(Final(order), Head(files[Final(order)]))]
  }

  function Restored(files: map<Path, Bytes>, lines: seq<(Path, Bytes)>): (r: map<Path, Bytes>)
    ensures r.Keys == files.Keys
    decreases |lines|
  {
    if lines == [] then files
    else
      var now := Restored(files, lines[..|lines| - 1]);
      var (path, first) := Final(lines);
      if path in now then now[path := first + Body(now[path])] else now
  }

  ghost predicate SameBodies(before: map<Path, Bytes>, after: map<Path, Bytes>) {
    before.Keys == after.Keys && forall p <- before :: Body(before[p]) == Body(after[p])
  }

  lemma RestoreOneMore(before: map<Path, Bytes>, after: map<Path, Bytes>, order: seq<Path>)
    requires order != [] && before.Keys == after.Keys && forall p <- order :: p in before
    ensures var now := Restored(after, SnapshotOf(before, order[..|order| - 1]));
            var path := Final(order);
            path in before && Restored(after, SnapshotOf(before, order)) == now[path := Head(before[path]) + Body(now[path])]
  {
    hide Head, Body;
    var lines := SnapshotOf(before, order);
    assert lines[..|lines| - 1] == SnapshotOf(before, order[..|order| - 1]);
  }

  /**
   Whatever happened to the headers meanwhile, complete or torn: with the bodies in place the
   snapshot brings back every file it covers.
   */
  lemma {:induction false} SnapshotRestores(before: map<Path, Bytes>, after: map<Path, Bytes>, order: seq<Path>)
    requires SameBodies(before, after) && forall p <- order :: p in before
    ensures BroughtBack(before, after, order, Restored(after, SnapshotOf(before, order)))
    decreases |order|
  {
    hide BroughtBack;
    if order == [] {
      NothingBroughtBack(before, after);
    } else {
      hide SameBodies, Restored, SnapshotOf, Head, Body;
      var now := Restored(after, SnapshotOf(before, order[..|order| - 1]));
      SnapshotRestores(before, after, order[..|order| - 1]);
      BodyStillThere(before, after, order[..|order| - 1], now, Final(order));
      RestoreOneMore(before, after, order);
      OneMoreBroughtBack(before, after, order, now);
    }
  }

  /** The files of `order` are as before, the others as they were found. */
  predicate BroughtBack(before: map<Path, Bytes>, after: map<Path, Bytes>, order: seq<Path>, now: map<Path, Bytes>) {
    before.Keys == after.Keys == now.Keys && forall p <- now :: now[p] == if p in order then before[p] else after[p]
  }

  lemma NothingBroughtBack(before: map<Path, Bytes>, after: map<Path, Bytes>)
    requires before.Keys == after.Keys
    ensures BroughtBack(before, after, [], after)
  {
  }

  lemma BodyStillThere(before: map<Path, Bytes>, after: map<Path, Bytes>, order: seq<Path>, now: map<Path, Bytes>, path: Path)
    requires SameBodies(before, after) && BroughtBack(before, after, order, now) && path in before
    ensures path in now && Head(before[path]) + Body(now[path]) == before[path]
  {
    HeadIsLine(before[path]);
    hide Head, Body;
    assert Body(before[path]) == Body(after[path]);
  }

  lemma OneMoreBroughtBack(before: map<Path, Bytes>, after: map<Path, Bytes>, order: seq<Path>, now: map<Path, Bytes>)
    requires order != [] && Final(order) in before && BroughtBack(before, after, order[..|order| - 1], now)
    ensures BroughtBack(before, after, order, now[Final(order) := before[Final(order)]])
  {
    assert order == order[..|order| - 1] + [Final(order)];
    assert forall p :: p in order <==> p in order[..|order| - 1] || p == Final(order);
  }

  /** A state of the files in which a rewrite may stop: each untouched, rewritten, or torn in its header. */
  ghost predicate Interrupted(c: Codec, target: string, before: map<Path, Bytes>, after: map<Path, Bytes>) {
    before.Keys == after.Keys && forall p <- before :: Midway(c, target, before[p], after[p])
  }

  ghost predicate Midway(c: Codec, target: string, file: Bytes, now: Bytes) {
    || now == file || now == Rewritten(c, target, file)
    || (Changes(c, target, file) && Fits(c, target, file)
        && exists k: nat :: k <= |Head(file)| && now == Torn(file, Rewritten(c, target, file), k))
  }

  /** The first k bytes of the new contents, and the old ones after them. */
  function Torn(file: Bytes, output: Bytes, k: nat): Bytes
    requires k <= |file| && k <= |output|
  {
    output[..k] + file[k..]
  }

  lemma MidwayKeepsBody(c: Codec, target: string, file: Bytes, now: Bytes)
    requires Lawful(c, target) && Midway(c, target, file, now)
    ensures Body(now) == Body(file)
  {
    if now == Rewritten(c, target, file) {
      RewriteKeepsBody(c, target, file);
    } else if now != file {
      var k: nat :| k <= |Head(file)| && now == Torn(file, Rewritten(c, target, file), k);
      TornWriteKeepsBody(c, target, file, k);
    }
  }

  /** Wherever the rewrite stopped, restoring the first lines taken before it brings back every file. */
  lemma RewriteIsUndone(c: Codec, target: string, before: map<Path, Bytes>, after: map<Path, Bytes>, order: seq<Path>)
    requires Lawful(c, target) && Interrupted(c, target, before, after)
    requires forall p :: p in order <==> p in before
    ensures Restored(after, SnapshotOf(before, order)) == before
  {
    forall p | p in before
      ensures Body(before[p]) == Body(after[p])
    {
      MidwayKeepsBody(c, target, before[p], after[p]);
    }
    hide Body, Head, Lawful, Midway;
    SnapshotRestores(before, after, order);
  }
}

/** Copies of one thread: which of them continue each other. */
module RolloutCopies {
  import opened Common
  import opened TurnScan
  import opened RolloutFile

  /** `_rollout_body_is_prefix`: reads both bodies block by block. */
  method BodyIsPrefix(shorter: Bytes, longer: Bytes, block: nat) returns (holds: bool)
    requires block > 0
    ensures holds <==> Prefix(Body(shorter), Body(longer))
  {
    var left, right := Body(shorter), Body(longer);
    var at := 0;
    while true
      invariant 0 <= at <= |left| && at <= |right| && left[..at] == right[..at]
      decreases |left| - at
    {
      var chunk := left[at..Min(at + block, |left|)];
      if chunk == [] {
        return true;
      }
      var other := right[at..Min(at + |chunk|, |right|)];
      if other != chunk {
        if Prefix(left, right) {
          ChunkOfPrefix(left, right, at, |chunk|);
        }
        return false;
      }
      assert left[..at + |chunk|] == left[..at] + chunk && right[..at + |chunk|] == right[..at] + other;
      at := at + |chunk|;
    }
  }

  lemma ChunkOfPrefix(left: Bytes, right: Bytes, at: nat, n: nat)
    requires Prefix(left, right) && at + n <= |left|
    ensures right[at..at + n] == left[at..at + n]
  {
    forall i | at <= i < at + n
      ensures right[i] == left[i]
    {
      assert right[..|left|][i] == left[i];
    }
  }

  datatype Verdict = Identical | Continuing | Divergent

  predicate Comparable(a: Bytes, b: Bytes) {
    Prefix(a, b) || Prefix(b, a)
  }

  /** Any two copies continue one another. */
  predicate Chain(copies: seq<Bytes>) {
    forall i, j :: 0 <= i < |copies| && 0 <= j < |copies| ==> Comparable(Body(copies[i]), Body(copies[j]))
  }

  predicate Alike(copies: seq<Bytes>) {
    forall i, j :: 0 <= i < |copies| && 0 <= j < |copies| ==> Body(copies[i]) == Body(copies[j])
  }

  predicate Longest(copies: seq<Bytes>, k: nat) {
    k < |copies| && forall i :: 0 <= i < |copies| ==> |Body(copies[i])| <= |Body(copies[k])|
  }

  /** Against a longest copy alone one sees whether the copies form a chain. */
  lemma LongestDecides(copies: seq<Bytes>, k: nat)
    requires Longest(copies, k)
    ensures Chain(copies) <==> forall i :: 0 <= i < |copies| ==> Prefix(Body(copies[i]), Body(copies[k]))
  {
    var top := Body(copies[k]);
    if Chain(copies) {
      forall i | 0 <= i < |copies|
        ensures Prefix(Body(copies[i]), top)
      {
        assert Comparable(Body(copies[i]), Body(copies[k]));
        PrefixOfShorter(top, Body(copies[i]));
      }
    }
    if forall i :: 0 <= i < |copies| ==> Prefix(Body(copies[i]), top) {
      forall i, j | 0 <= i < |copies| && 0 <= j < |copies|
        ensures Comparable(Body(copies[i]), Body(copies[j]))
      {
        assert Prefix(Body(copies[i]), top) && Prefix(Body(copies[j]), top);
        SharedPrefix(Body(copies[i]), Body(copies[j]), top);
      }
    }
  }

  lemma PrefixOfShorter(a: Bytes, b: Bytes)
    requires |b| <= |a|
    ensures Prefix(a, b) ==> Prefix(b, a)
  {
  }

  lemma SharedPrefix(a: Bytes, b: Bytes, top: Bytes)
    requires Prefix(a, top) && Prefix(b, top)
    ensures Comparable(a, b)
  {
    if |a| <= |b| {
      assert top[..|b|][..|a|] == top[..|a|];
    } else {
      assert top[..|a|][..|b|] == top[..|b|];
    }
  }

  method LongestCopy(copies: seq<Bytes>) returns (k: nat)
    requires copies != []
    ensures Longest(copies, k)
  {
    k := 0;
    for i := 1 to |copies|
      invariant k < i && forall j :: 0 <= j < i ==> |Body(copies[j])| <= |Body(copies[k])|
    {
      if |Body(copies[i])| > |Body(copies[k])| {
        k := i;
      }
    }
  }

  /** How `_rollout_inventory` judges the copies of one thread, their digests standing for the bodies. */
  method Judge(copies: seq<Bytes>, block: nat) returns (v: Verdict)
    requires |copies| >= 2 && block > 0
    ensures v == Identical <==> Alike(copies)
    ensures v == Divergent <==> !Chain(copies)
  {
    hide Body, Prefix;
    var bodies := set i | 0 <= i < |copies| :: Body(copies[i]);
    OneBody(copies, bodies);
    if |bodies| == 1 {
      AlikeIsChain(copies);
      return Identical;
    }
    var k := LongestCopy(copies);
    LongestDecides(copies, k);
    for i := 0 to |copies|
      invariant forall j :: 0 <= j < i ==> Prefix(Body(copies[j]), Body(copies[k]))
    {
      if i != k {
        var holds := BodyIsPrefix(copies[i], copies[k], block);
        if !holds {
          return Divergent;
        }
      } else {
        PrefixOfItself(Body(copies[i]));
      }
    }
    return Continuing;
  }

  lemma PrefixOfItself(a: Bytes)
    ensures Prefix(a, a)
  {
  }

  lemma AlikeIsChain(copies: seq<Bytes>)
    requires Alike(copies)
    ensures Chain(copies)
  {
    hide Body;
  }

  lemma OneBody(copies: seq<Bytes>, bodies: set<Bytes>)
    requires copies != [] && bodies == set i | 0 <= i < |copies| :: Body(copies[i])
    ensures |bodies| == 1 <==> Alike(copies)
  {
    hide Body;
    var first := Body(copies[0]);
    assert first in bodies;
    if Alike(copies) {
      assert bodies == {first};
    } else if |bodies| == 1 {
      assert |bodies - {first}| == 0;
      forall i | 0 <= i < |copies|
        ensures Body(copies[i]) == first
      {
        assert Body(copies[i]) in bodies;
      }
    }
  }
}
