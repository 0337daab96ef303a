/** The two wire helpers of the write side that run a loop: little-text escaping and the check that
    the parts of a video upload tile the file. */
module Wire {
  import opened Wrappers

  // ----- little text ---------------------------------------------------------------------

  const LITTLE_RESERVED: set<char> :=
    {'|', '{', '}', '@', '[', ']', '(', ')', '<', '>', '#', '\\', '*', '_', '~'}

  lemma ReservedCharacters(c: char)
    ensures c in LITTLE_RESERVED <==> c in "|{}@[]()<>#\\*_~"
  {
  }

  /** A '#' directly before a letter or digit and not inside a word stays a hashtag. */
  predicate IsHashtag(text: string, i: nat, alnum: char -> bool)
    requires i < |text|
  {
    text[i] == '#' && i + 1 < |text| && alnum(text[i + 1]) && (i == 0 || !alnum(text[i - 1]))
  }

  /** One character as a little-text reader sees it: escaped or bare. */
  datatype Mark = Mark(c: char, escaped: bool)

  /** What the escaped text must mean: every character of the text, in order, escaped exactly when it
      is reserved and not the '#' of a hashtag. */
  function Marks(text: string, alnum: char -> bool): (marks: seq<Mark>)
  {
    seq(|text|, i requires 0 <= i < |text| =>
      Mark(text[i], text[i] in LITTLE_RESERVED && !IsHashtag(text, i, alnum)))
  }

  function Written(mark: Mark): string {
    if mark.escaped then ['\\', mark.c] else [mark.c]
  }

  function WriteMarks(marks: seq<Mark>): string {
    if marks == [] then "" else Written(marks[0]) + WriteMarks(marks[1..])
  }

  /** A little-text reader: a backslash takes the next character literally. */
  function Scan(s: string): seq<Mark> {
    if s == "" then []
    else if s[0] == '\\' && |s| > 1 then [Mark(s[1], true)] + Scan(s[2..])
    else [Mark(s[0], false)] + Scan(s[1..])
  }

  function Plain(marks: seq<Mark>): string {
    seq(|marks|, i requires 0 <= i < |marks| => marks[i].c)
  }

  /** Taking the backslash escapes out again. */
  function Unescape(s: string): string {
    Plain(Scan(s))
  }

  lemma {:induction false} WriteAppend(marks: seq<Mark>, mark: Mark)
    ensures WriteMarks(marks + [mark]) == WriteMarks(marks) + Written(mark)
  {
    if marks == [] {
      assert marks + [mark] == [mark];
    } else {
      WriteAppend(marks[1..], mark);
      assert (marks + [mark])[1..] == marks[1..] + [mark];
    }
  }

  lemma {:induction false} ScanWritten(marks: seq<Mark>)
    requires forall m | m in marks :: m.c == '\\' ==> m.escaped
    ensures Scan(WriteMarks(marks)) == marks
  {
    if marks == [] {
    } else {
      ScanWritten(marks[1..]);
      var s, rest := WriteMarks(marks), WriteMarks(marks[1..]);
      assert s == Written(marks[0]) + rest;
      assert s[|Written(marks[0])|..] == rest;
      assert [marks[0]] + marks[1..] == marks;
    }
  }

  function LittleText(text: string, alnum: char -> bool): string {
    WriteMarks(Marks(text, alnum))
  }

  /** The source's loop: one piece per character, chosen by its neighbours. */
  method Little(text: string, alnum: char -> bool) returns (out: string)
    ensures out == LittleText(text, alnum)
  {
    ghost var marks := Marks(text, alnum);
    out := "";
    for i := 0 to |text|
      invariant out == WriteMarks(marks[..i])
    {
      if text[i] == '#' && i + 1 < |text| && alnum(text[i + 1]) && (i == 0 || !alnum(text[i - 1])) {
        out := out + [text[i]];
      } else if text[i] in LITTLE_RESERVED {
        out := out + ['\\', text[i]];
      } else {
        out := out + [text[i]];
      }
      WriteAppend(marks[..i], marks[i]);
      assert marks[..i + 1] == marks[..i] + [marks[i]];
    }
    assert marks[..|text|] == marks;
  }

  /** Taking the escapes out again gives the text back, and a reader of the escaped text sees every
      character in order, bare exactly when it is not reserved or is the '#' of a hashtag. */
  lemma LittleIsUndone(text: string, alnum: char -> bool)
    ensures Unescape(LittleText(text, alnum)) == text
    ensures var seen := Scan(LittleText(text, alnum));
            |seen| == |text| && forall i | 0 <= i < |text| ::
              && seen[i].c == text[i]
              && (seen[i].escaped <==>
                    && text[i] in "|{}@[]()<>#\\*_~"
                    && !(text[i] == '#' && i < |text| - 1 && alnum(text[i + 1]) && (i > 0 ==> !alnum(text[i - 1]))))
  {
    ScanWritten(Marks(text, alnum));
    assert Plain(Marks(text, alnum)) == text;
  }

  /** Hence no two texts share an escaped form. */
  lemma LittleInjective(a: string, b: string, alnum: char -> bool)
    requires LittleText(a, alnum) == LittleText(b, alnum)
    ensures a == b
  {
    LittleIsUndone(a, alnum);
    LittleIsUndone(b, alnum);
  }

  // ----- video parts ---------------------------------------------------------------------

  const VIDEO_PART_BYTES: nat := 4 * 1024 * 1024

  /** One upload instruction of the provider; an absent number is one that is not an integer. */
  datatype Instruction = NotAnObject | Instruction(first: Option<int>, last: Option<int>, url: Option<string>)

  datatype Part = Part(url: string, first: nat, last: nat)

  /** The part count `ceil(size / 4 MiB)` that the source allows. */
  function MaxParts(size: nat): nat {
    (size + VIDEO_PART_BYTES - 1) / VIDEO_PART_BYTES
  }

  /** As many parts as it takes at 4 MiB each, and not one more. */
  lemma PartsLimit(size: nat)
    ensures MaxParts(size) * 4194304 >= size
    ensures MaxParts(size) > 0 ==> (MaxParts(size) - 1) * 4194304 < size
  {
  }

  /** The parts follow each other without gap or overlap from `start` to the end of the file. */
  predicate Tiles(parts: seq<Part>, start: int, size: nat) {
    if parts == [] then start == size
    else parts[0].first == start && start <= parts[0].last < size && Tiles(parts[1..], parts[0].last + 1, size)
  }

  predicate Answers(item: Instruction, part: Part, urlOk: string -> bool) {
    item.Instruction? && item.first == Some(part.first) && item.last == Some(part.last)
    && item.url == Some(part.url) && urlOk(part.url)
  }

  /** The source's checks in their order: the parts named from `expected` on, or the first complaint. */
  function PartsFrom(
      items: seq<Instruction>, expected: nat, size: nat, urlOk: string -> bool): Result<seq<Part>, string>
  {
    if items == [] then (if expected == size then Ok([]) else Err("upload_teile_ungueltig"))
    else if items[0].NotAnObject? || items[0].first != Some(expected) || items[0].last == None
            || !(expected <= items[0].last.value < size) then Err("upload_teile_ungueltig")
    else if items[0].url == None || !urlOk(items[0].url.value) then Err("upload_ziel_abgewiesen")
    else
      match PartsFrom(items[1..], items[0].last.value + 1, size, urlOk)
      case Err(e) => Err(e)
      case Ok(rest) => Ok([Part(items[0].url.value, expected, items[0].last.value)] + rest)
  }

  function Parts(items: seq<Instruction>, size: nat, urlOk: string -> bool): Result<seq<Part>, string> {
    if items == [] || |items| > MaxParts(size) then Err("upload_teile_ungueltig")
    else PartsFrom(items, 0, size, urlOk)
  }

  /** The source's loop: every part is checked before the first byte is sent. */
  method VideoTeile(items: seq<Instruction>, size: nat, urlOk: string -> bool) returns (r: Result<seq<Part>, string>)
    ensures r == Parts(items, size, urlOk)
  {
    if items == [] || |items| > MaxParts(size) {
      return Err("upload_teile_ungueltig");
    }
    var parts: seq<Part> := [];
    var expected: nat := 0;
    assert items[0..] == items;
    assert forall rest: seq<Part> :: parts + rest == rest;
    for i := 0 to |items|
      invariant Parts(items, size, urlOk)
             == match PartsFrom(items[i..], expected, size, urlOk)
                case Err(e) => Err(e)
                case Ok(rest) => Ok(parts + rest)
    {
      var item := items[i];
      assert items[i..][0] == item && items[i..][1..] == items[i + 1..];
      if item.NotAnObject? {
        return Err("upload_teile_ungueltig");
      }
      if item.first == None || item.last == None || item.first.value != expected
         || !(item.first.value <= item.last.value < size) {
        return Err("upload_teile_ungueltig");
      }
      if item.url == None || !urlOk(item.url.value) {
        return Err("upload_ziel_abgewiesen");
      }
      ghost var tail := PartsFrom(items[i + 1..], item.last.value + 1, size, urlOk);
      ghost var part := Part(item.url.value, expected, item.last.value);
      assert tail.Ok? ==> parts + ([part] + tail.value) == parts + [part] + tail.value;
      parts := parts + [Part(item.url.value, item.first.value, item.last.value)];
      expected := item.last.value + 1;
    }
    assert items[|items|..] == [] && parts + [] == parts;
    if expected != size {
      return Err("upload_teile_ungueltig");
    }
    return Ok(parts);
  }

  /** These are the parts the instructions name, every upload address is allowed, and they tile the file
      from `start` on. */
  ghost predicate Accepted(items: seq<Instruction>, start: nat, size: nat, urlOk: string -> bool, parts: seq<Part>) {
    && |parts| == |items|
    && (forall i | 0 <= i < |items| :: Answers(items[i], parts[i], urlOk))
    && Tiles(parts, start, size)
  }

  /** The checks accept exactly the instructions that name allowed parts tiling the file. */
  lemma {:induction false} PartsAreTheTiling(items: seq<Instruction>, start: nat, size: nat, urlOk: string -> bool)
    ensures PartsFrom(items, start, size, urlOk).Ok? ==>
              Accepted(items, start, size, urlOk, PartsFrom(items, start, size, urlOk).value)
    ensures PartsFrom(items, start, size, urlOk).Err? ==>
              forall parts :: !Accepted(items, start, size, urlOk, parts)
  {
    if items != [] {
      var r := PartsFrom(items, start, size, urlOk);
      if items[0].Instruction? && items[0].first == Some(start) && items[0].last.Some?
         && start <= items[0].last.value < size && items[0].url.Some? && urlOk(items[0].url.value) {
        var next := items[0].last.value + 1;
        PartsAreTheTiling(items[1..], next, size, urlOk);
        if r.Ok? {
          AcceptedCons(items, start, size, urlOk, r.value);
        } else {
          forall parts | |parts| == |items| ensures !Accepted(items, start, size, urlOk, parts) {
            AcceptedCons(items, start, size, urlOk, parts);
          }
        }
      } else {
        forall parts | |parts| == |items| ensures !Accepted(items, start, size, urlOk, parts) {
          AcceptedCons(items, start, size, urlOk, parts);
        }
      }
    }
  }

  lemma AcceptedCons(items: seq<Instruction>, start: nat, size: nat, urlOk: string -> bool, parts: seq<Part>)
    requires |parts| == |items| > 0
    ensures Accepted(items, start, size, urlOk, parts) <==>
              && Answers(items[0], parts[0], urlOk)
              && parts[0].first == start && start <= parts[0].last < size
              && Accepted(items[1..], parts[0].last + 1, size, urlOk, parts[1..])
  {
    if Answers(items[0], parts[0], urlOk)
       && (forall i | 0 <= i < |items| - 1 :: Answers(items[1..][i], parts[1..][i], urlOk)) {
      forall i | 0 <= i < |items| ensures Answers(items[i], parts[i], urlOk) {
        assert i > 0 ==> items[i] == items[1..][i - 1] && parts[i] == parts[1..][i - 1];
      }
    }
  }

  lemma {:induction false} TilesInside(parts: seq<Part>, start: nat, size: nat)
    requires Tiles(parts, start, size)
    ensures forall p | p in parts :: start <= p.first <= p.last < size
  {
    if parts != [] {
      TilesInside(parts[1..], parts[0].last + 1, size);
      forall p | p in parts ensures start <= p.first <= p.last < size {
        assert p == parts[0] || p in parts[1..];
      }
    }
  }

  function Slices<T>(data: seq<T>, parts: seq<Part>): seq<T>
    requires forall p | p in parts :: p.first <= p.last < |data|
  {
    if parts == [] then [] else data[parts[0].first..parts[0].last + 1] + Slices(data, parts[1..])
  }

  /** Uploading the accepted parts one after the other sends exactly the bytes of the one copy. */
  lemma {:induction false} SlicesAppend<T>(data: seq<T>, parts: seq<Part>, last: Part)
    requires (forall p | p in parts :: p.first <= p.last < |data|) && last.first <= last.last < |data|
    ensures Slices(data, parts + [last]) == Slices(data, parts) + data[last.first..last.last + 1]
    decreases |parts|
  {
    if parts == [] {
      assert parts + [last] == [last];
    } else {
      var more, first := parts + [last], data[parts[0].first..parts[0].last + 1];
      assert more[0] == parts[0] && more[1..] == parts[1..] + [last];
      SlicesAppend(data, parts[1..], last);
      assert Slices(data, more) == first + Slices(data, parts[1..] + [last]);
    }
  }

  lemma {:induction false} PartsRebuild<T>(data: seq<T>, parts: seq<Part>, start: nat)
    requires start <= |data| && Tiles(parts, start, |data|)
    ensures forall p | p in parts :: p.first <= p.last < |data|
    ensures Slices(data, parts) == data[start..]
    decreases |parts|
  {
    if parts == [] {
    } else {
      PartsRebuild(data, parts[1..], parts[0].last + 1);
      forall p | p in parts ensures p.first <= p.last < |data| {
        assert p == parts[0] || p in parts[1..];
      }
      assert data[start..] == data[start..parts[0].last + 1] + data[parts[0].last + 1..];
    }
  }
}
