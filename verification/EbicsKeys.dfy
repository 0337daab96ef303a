/** The bank keys: fetch them, compare them, and replace the key file only after the operator has confirmed
    both digests; the old file stays as a numbered backup. */
module EbicsKeys {
  import opened Wrappers
  import opened EbicsFiles
  import opened FileNames

  // ----- digests ---------------------------------------------------------------------------

  predicate IsHex(c: char) {
    '0' <= c <= '9' || 'a' <= c <= 'f' || 'A' <= c <= 'F'
  }

  function LowerHex(c: char): char {
    if 'A' <= c <= 'F' then c - 'A' + 'a' else c
  }

  function UpperHex(c: char): char {
    if 'a' <= c <= 'f' then c - 'a' + 'A' else c
  }

  /** `ebicsPruefsummeNormalisieren`: the hex digits alone, in lower case. */
  function Normalised(text: string): string {
    if text == "" then ""
    else HexPart(text[0]) + Normalised(text[1..])
  }

  function HexPart(c: char): string {
    if IsHex(c) then [LowerHex(c)] else ""
  }

  /** The presentation of bank letters: upper case, in pairs. */
  function Grouped(hex: string): string {
    if |hex| <= 2 then Upper(hex) else Upper(hex[..2]) + " " + Grouped(hex[2..])
  }

  function Upper(hex: string): string {
    seq(|hex|, i requires 0 <= i < |hex| => UpperHex(hex[i]))
  }

  lemma {:induction false} NormalisedParts(a: string, b: string)
    ensures Normalised(a + b) == Normalised(a) + Normalised(b)
  {
    hide HexPart;
    if a == "" {
      assert a + b == b;
    } else {
      NormalisedParts(a[1..], b);
      assert (a + b)[0] == a[0] && (a + b)[1..] == a[1..] + b;
      assert Normalised(a + b) == HexPart(a[0]) + (Normalised(a[1..]) + Normalised(b));
    }
  }

  lemma {:induction false} UpperNormalised(hex: string)
    ensures Normalised(Upper(hex)) == Normalised(hex)
  {
    if hex != "" {
      assert Upper(hex)[1..] == Upper(hex[1..]);
      UpperNormalised(hex[1..]);
    }
  }

  /** Case and grouping are presentation only: what is shown compares equal to what it was made from. */
  lemma {:induction false} GroupingIsPresentation(hex: string)
    ensures Normalised(Grouped(hex)) == Normalised(hex)
    decreases |hex|
  {
    if |hex| <= 2 {
      UpperNormalised(hex);
    } else {
      NormalisedParts(Upper(hex[..2]) + " ", Grouped(hex[2..]));
      NormalisedParts(Upper(hex[..2]), " ");
      UpperNormalised(hex[..2]);
      GroupingIsPresentation(hex[2..]);
      NormalisedParts(hex[..2], hex[2..]);
      assert hex[..2] + hex[2..] == hex && Normalised(" ") == "";
    }
  }

  /** The value of a hex digit, in either case. */
  function Nibble(c: char): Option<nat> {
    match c
    case '0' => Some(0) case '1' => Some(1) case '2' => Some(2) case '3' => Some(3)
    case '4' => Some(4) case '5' => Some(5) case '6' => Some(6) case '7' => Some(7)
    case '8' => Some(8) case '9' => Some(9)
    case 'a' => Some(10) case 'b' => Some(11) case 'c' => Some(12)
    case 'd' => Some(13) case 'e' => Some(14) case 'f' => Some(15)
    case 'A' => Some(10) case 'B' => Some(11) case 'C' => Some(12)
    case 'D' => Some(13) case 'E' => Some(14) case 'F' => Some(15)
    case _ => None
  }

  /** The number a text stands for when everything but its hex digits is left out, digit by digit. */
  function Nibbles(text: string): seq<nat> {
    if text == "" then []
    else (if Nibble(text[0]).Some? then [Nibble(text[0]).value] else []) + Nibbles(text[1..])
  }

  lemma NibbleOfHex(c: char)
    ensures IsHex(c) <==> Nibble(c).Some?
    ensures IsHex(c) ==> IsHex(LowerHex(c)) && Nibble(LowerHex(c)) == Nibble(c) && !('A' <= LowerHex(c) <= 'F')
    ensures IsHex(c) ==> Nibble(UpperHex(c)) == Nibble(c) && !('a' <= UpperHex(c) <= 'f')
  {
  }

  lemma SameNibble(c: char, d: char)
    requires IsHex(c) && IsHex(d) && Nibble(c) == Nibble(d)
    ensures LowerHex(c) == LowerHex(d)
  {
  }

  lemma {:induction false} NibblesOfNormalised(text: string)
    ensures Nibbles(Normalised(text)) == Nibbles(text) && |Normalised(text)| == |Nibbles(text)|
    ensures forall c | c in Normalised(text) :: IsHex(c) && LowerHex(c) == c
  {
    hide Nibble, IsHex, LowerHex;
    if text != "" {
      NibblesOfNormalised(text[1..]);
      NibbleOfHex(text[0]);
      var rest := Normalised(text[1..]);
      if IsHex(text[0]) {
        LowerOnce(text[0]);
        assert Normalised(text) == [LowerHex(text[0])] + rest && ([LowerHex(text[0])] + rest)[1..] == rest;
      } else {
        assert Normalised(text) == rest;
      }
    }
  }

  lemma LowerOnce(c: char)
    requires IsHex(c)
    ensures LowerHex(LowerHex(c)) == LowerHex(c)
  {
  }

  lemma {:induction false} SameDigits(a: string, b: string)
    requires forall c | c in a :: IsHex(c) && LowerHex(c) == c
    requires forall c | c in b :: IsHex(c) && LowerHex(c) == c
    requires Nibbles(a) == Nibbles(b)
    ensures a == b
    decreases |a|
  {
    hide Nibble, IsHex, LowerHex;
    if a != "" {
      NibbleOfHex(a[0]);
    }
    if b != "" {
      NibbleOfHex(b[0]);
    }
    if a != "" && b != "" {
      assert a[0] in a && b[0] in b;
      var x, y := [Nibble(a[0]).value], [Nibble(b[0]).value];
      assert (x + Nibbles(a[1..]))[0] == (y + Nibbles(b[1..]))[0];
      assert (x + Nibbles(a[1..]))[1..] == (y + Nibbles(b[1..]))[1..];
      SameNibble(a[0], b[0]);
      SameDigits(a[1..], b[1..]);
      assert a == [a[0]] + a[1..] && b == [b[0]] + b[1..];
    }
  }

  /** Two texts are the same digest exactly if they have the same hex digits. */
  lemma NormalisedIsTheDigits(a: string, b: string)
    ensures Normalised(a) == Normalised(b) <==> Nibbles(a) == Nibbles(b)
    ensures Normalised(a) == "" <==> Nibbles(a) == []
  {
    NibblesOfNormalised(a);
    NibblesOfNormalised(b);
    if Nibbles(a) == Nibbles(b) {
      SameDigits(Normalised(a), Normalised(b));
    }
  }

  /** The presentation: upper case, and a blank after every second digit. */
  lemma {:induction false} GroupedInPairs(hex: string, i: nat)
    requires i < |hex| && forall c | c in hex :: IsHex(c)
    ensures |Grouped(hex)| == |hex| + (|hex| - 1) / 2
    ensures Grouped(hex)[i + i / 2] == UpperHex(hex[i])
    ensures i > 0 && i % 2 == 0 ==> Grouped(hex)[i + i / 2 - 1] == ' '
    decreases |hex|
  {
    hide UpperHex, IsHex;
    if |hex| > 2 {
      GroupedInPairs(hex[2..], if i >= 2 then i - 2 else 0);
    }
  }

  // ----- arguments -------------------------------------------------------------------------

  datatype Modus = Erstabruf | Pruefen | Uebernehmen

  datatype Aufruf = Aufruf(modus: Modus, x002: string, e002: string)

  function TrimLeft(text: string): string {
    if text != "" && IsSpace(text[0]) then TrimLeft(text[1..]) else text
  }

  function TrimRight(text: string): string {
    if text != "" && IsSpace(text[|text| - 1]) then TrimRight(text[..|text| - 1]) else text
  }

  function Trim(text: string): string {
    TrimRight(TrimLeft(text))
  }

  const CHECK: string := "--pruefen"
  const ADOPT: string := "--uebernehmen"
  const X_INPUT: string := "--x002="
  const E_INPUT: string := "--e002="

  /** One argument after the others; `None` is a call the script refuses. */
  function Read(sofar: Aufruf, argument: string): Option<Aufruf> {
    if argument == CHECK || argument == ADOPT then
      if sofar.modus != Erstabruf then None
      else Some(sofar.(modus := if argument == CHECK then Pruefen else Uebernehmen))
    else if X_INPUT <= argument then Some(sofar.(x002 := Trim(argument[7..])))
    else if E_INPUT <= argument then Some(sofar.(e002 := Trim(argument[7..])))
    else None
  }

  function ReadAll(arguments: seq<string>): Option<Aufruf> {
    if arguments == [] then Some(Aufruf(Erstabruf, "", ""))
    else
      match ReadAll(arguments[..|arguments| - 1])
      case None => None
      case Some(sofar) => Read(sofar, arguments[|arguments| - 1])
  }

  predicate Whole(a: Aufruf) {
    if a.modus == Uebernehmen then a.x002 != "" && a.e002 != "" else a.x002 == "" && a.e002 == ""
  }

  /** `ebicsUebernahmeArgumente`. */
  method UebernahmeArgumente(arguments: seq<string>) returns (r: Option<Aufruf>)
    ensures r.Some? <==> ReadAll(arguments).Some? && Whole(ReadAll(arguments).value)
    ensures r.Some? ==> r == ReadAll(arguments)
  {
    var modus, x002, e002 := Erstabruf, "", "";
    for i := 0 to |arguments|
      invariant ReadAll(arguments[..i]) == Some(Aufruf(modus, x002, e002))
    {
      var argument := arguments[i];
      assert arguments[..i + 1][..i] == arguments[..i];
      Stops(arguments, i + 1);
      if argument == CHECK || argument == ADOPT {
        if modus != Erstabruf {
          return None;
        }
        modus := if argument == CHECK then Pruefen else Uebernehmen;
        continue;
      }
      if X_INPUT <= argument {
        x002 := Trim(argument[7..]);
        continue;
      }
      if E_INPUT <= argument {
        e002 := Trim(argument[7..]);
        continue;
      }
      return None;
    }
    assert arguments[..|arguments|] == arguments;
    if modus == Uebernehmen && (x002 == "" || e002 == "") {
      return None;
    }
    if modus != Uebernehmen && (x002 != "" || e002 != "") {
      return None;
    }
    return Some(Aufruf(modus, x002, e002));
  }

  lemma {:induction false} Stops(arguments: seq<string>, n: nat)
    requires n <= |arguments|
    ensures ReadAll(arguments[..n]) == None ==> ReadAll(arguments) == None
    decreases |arguments| - n
  {
    if n < |arguments| {
      assert arguments[..n + 1][..n] == arguments[..n];
      Stops(arguments, n + 1);
    } else {
      assert arguments[..n] == arguments;
    }
  }

  predicate IsMode(argument: string) {
    argument == "--pruefen" || argument == "--uebernehmen"
  }

  predicate Known(argument: string) {
    IsMode(argument) || "--x002=" <= argument || "--e002=" <= argument
  }

  /** The input is what follows the last such option, or nothing. */
  predicate LastInput(arguments: seq<string>, option: string, input: string) {
    || (input == "" && forall i | 0 <= i < |arguments| :: !(option <= arguments[i]))
    || exists i | 0 <= i < |arguments| ::
         && option <= arguments[i] && input == Trim(arguments[i][|option|..])
         && forall j | i < j < |arguments| :: !(option <= arguments[j])
  }

  /** What a call says, by its arguments as a whole. */
  predicate Says(arguments: seq<string>, a: Aufruf) {
    && (a.modus == Pruefen <==> "--pruefen" in arguments)
    && (a.modus == Uebernehmen <==> "--uebernehmen" in arguments)
    && LastInput(arguments, "--x002=", a.x002) && LastInput(arguments, "--e002=", a.e002)
  }

  /** Readable calls have known arguments and at most one mode. */
  predicate Legible(arguments: seq<string>) {
    && (forall i | 0 <= i < |arguments| :: Known(arguments[i]))
    && (forall i, j | 0 <= i < j < |arguments| :: !(IsMode(arguments[i]) && IsMode(arguments[j])))
  }

  lemma OptionsDiffer(argument: string)
    ensures IsMode(argument) ==> !("--x002=" <= argument) && !("--e002=" <= argument)
    ensures "--x002=" <= argument ==> !("--e002=" <= argument)
  {
    assert "--pruefen"[2] == 'p' && "--uebernehmen"[2] == 'u' && "--x002="[2] == 'x' && "--e002="[2] == 'e';
  }

  lemma InputOn(arguments: seq<string>, last: string, option: string, input: string)
    requires LastInput(arguments, option, input)
    ensures LastInput(arguments + [last], option, if option <= last then Trim(last[|option|..]) else input)
  {
    var all := arguments + [last];
    assert forall i | 0 <= i < |arguments| :: all[i] == arguments[i];
    assert all[|arguments|] == last;
    if option <= last {
      assert option <= all[|arguments|];
    } else if exists i | 0 <= i < |arguments| :: option <= arguments[i] {
      assert forall i | 0 <= i < |arguments| :: option <= arguments[i] <==> option <= all[i];
    }
  }

  lemma SaysOn(front: seq<string>, last: string, before: Aufruf)
    requires Says(front, before) && Read(before, last).Some?
    ensures Says(front + [last], Read(before, last).value)
  {
    hide LastInput, Trim;
    OptionsDiffer(last);
    InputOn(front, last, "--x002=", before.x002);
    InputOn(front, last, "--e002=", before.e002);
    assert "--pruefen"[2] == 'p' && "--uebernehmen"[2] == 'u';
  }

  lemma LegibleOn(front: seq<string>, last: string)
    ensures Legible(front + [last]) <==>
            && Legible(front) && Known(last)
            && (IsMode(last) ==> forall i | 0 <= i < |front| :: !IsMode(front[i]))
  {
    hide IsMode, Known;
    var all := front + [last];
    assert all[|front|] == last && forall i | 0 <= i < |front| :: all[i] == front[i];
  }

  /** Which calls can be read, and what they say, whatever the order of their arguments. */
  lemma {:induction false} ReadAllIsExact(arguments: seq<string>)
    ensures ReadAll(arguments).Some? <==> Legible(arguments)
    ensures ReadAll(arguments).Some? ==> Says(arguments, ReadAll(arguments).value)
    decreases |arguments|
  {
    hide Legible, LastInput, Trim;
    if arguments == [] {
      NothingSaid();
    } else {
      var front, last := arguments[..|arguments| - 1], arguments[|arguments| - 1];
      ReadAllIsExact(front);
      assert front + [last] == arguments;
      LegibleOn(front, last);
      if ReadAll(front).Some? {
        ModeSaid(front, ReadAll(front).value);
        if ReadAll(arguments).Some? {
          SaysOn(front, last, ReadAll(front).value);
        }
      }
    }
  }

  lemma NothingSaid()
    ensures Legible([]) && Says([], Aufruf(Erstabruf, "", ""))
  {
  }

  lemma ModeSaid(arguments: seq<string>, a: Aufruf)
    requires Says(arguments, a)
    ensures a.modus == Erstabruf <==> forall i | 0 <= i < |arguments| :: !IsMode(arguments[i])
  {
  }

  lemma {:induction false} TrimmedLeft(text: string) returns (front: string)
    ensures text == front + TrimLeft(text) && White(front)
    ensures TrimLeft(text) != "" ==> !White([TrimLeft(text)[0]])
  {
    front := "";
    if text != "" && IsSpace(text[0]) {
      var more := TrimmedLeft(text[1..]);
      front := [text[0]] + more;
    } else if text != "" {
      assert text[0] in [text[0]];
    }
  }

  lemma {:induction false} TrimmedRight(text: string) returns (back: string)
    ensures text == TrimRight(text) + back && White(back)
    ensures TrimRight(text) != "" ==> !White([TrimRight(text)[|TrimRight(text)| - 1]]) && TrimRight(text)[0] == text[0]
  {
    back := "";
    if text != "" && IsSpace(text[|text| - 1]) {
      var more := TrimmedRight(text[..|text| - 1]);
      back := more + [text[|text| - 1]];
      if TrimRight(text) != "" {
        assert TrimRight(text[..|text| - 1])[0] == text[..|text| - 1][0];
      }
    } else if text != "" {
      assert text[|text| - 1] in [text[|text| - 1]];
    }
  }

  /** An input is taken without the white space around it, and with nothing else missing. */
  lemma TrimIsInner(text: string) returns (front: string, back: string)
    ensures text == front + Trim(text) + back && White(front) && White(back)
    ensures Trim(text) != "" ==> !White([Trim(text)[0]]) && !White([Trim(text)[|Trim(text)| - 1]])
  {
    hide White, TrimLeft, TrimRight;
    front := TrimmedLeft(text);
    back := TrimmedRight(TrimLeft(text));
  }

  // ----- comparing -------------------------------------------------------------------------

  /** The two roles, in their fixed order. */
  datatype Role = X002 | E002

  datatype Digest = Digest(key: string, certificate: Option<string>)

  datatype Summary = Summary(x: Digest, e: Digest)

  function Of(s: Summary, role: Role): Digest {
    if role == X002 then s.x else s.e
  }

  function CertificateText(d: Digest): string {
    if d.certificate.Some? then d.certificate.value else ""
  }

  predicate KeyDiffers(old_: Summary, new_: Summary, role: Role) {
    Normalised(Of(old_, role).key) != Normalised(Of(new_, role).key)
  }

  predicate CertificateDiffers(old_: Summary, new_: Summary, role: Role) {
    Normalised(CertificateText(Of(old_, role))) != Normalised(CertificateText(Of(new_, role)))
  }

  const ROLES: seq<Role> := [X002, E002]

  datatype Lage = Lage(keys: seq<Role>, certificatesOnly: seq<Role>)

  /** `ebicsPruefsummenLage`: a changed certificate counts, and is told apart from a changed key. */
  method PruefsummenLage(old_: Summary, new_: Summary) returns (lage: Lage)
    ensures forall role :: role in lage.keys <==> KeyDiffers(old_, new_, role)
    ensures forall role :: role in lage.certificatesOnly <==>
              !KeyDiffers(old_, new_, role) && CertificateDiffers(old_, new_, role)
    ensures |lage.keys| + |lage.certificatesOnly| <= 2
  {
    var keys: seq<Role>, certificates: seq<Role> := [], [];
    for i := 0 to |ROLES|
      invariant |keys| + |certificates| <= i
      invariant forall role :: role in keys <==> role in ROLES[..i] && KeyDiffers(old_, new_, role)
      invariant forall role :: role in certificates <==>
                  role in ROLES[..i] && !KeyDiffers(old_, new_, role) && CertificateDiffers(old_, new_, role)
    {
      var role := ROLES[i];
      assert ROLES[..i + 1] == ROLES[..i] + [role];
      if KeyDiffers(old_, new_, role) {
        keys := keys + [role];
      } else if CertificateDiffers(old_, new_, role) {
        certificates := certificates + [role];
      }
    }
    forall role: Role ensures role in ROLES[..|ROLES|] {
      assert ROLES[0] == X002 && ROLES[1] == E002;
      match role case X002 => case E002 =>
    }
    lage := Lage(keys, certificates);
  }

  /** An input confirms a delivered key: not empty, and the same hex digits. */
  predicate Confirms(input: string, delivered: string) {
    Normalised(input) != "" && Normalised(input) == Normalised(delivered)
  }

  /** `ebicsUebernahmePruefen`: both or nothing. */
  method UebernahmePruefen(x002: string, e002: string, delivered: Summary) returns (ok: bool)
    ensures ok <==> Confirms(x002, delivered.x.key) && Confirms(e002, delivered.e.key)
  {
    var deviations := 0;
    for i := 0 to |ROLES|
      invariant 0 <= deviations <= i
      invariant deviations == 0 <==> forall k | 0 <= k < i ::
                  Confirms(if ROLES[k] == X002 then x002 else e002, Of(delivered, ROLES[k]).key)
    {
      var input := Normalised(if ROLES[i] == X002 then x002 else e002);
      if input == "" || input != Normalised(Of(delivered, ROLES[i]).key) {
        deviations := deviations + 1;
      }
    }
    assert ROLES[0] == X002 && ROLES[1] == E002;
    ok := deviations == 0;
  }

  // ----- replacing the key file ------------------------------------------------------------

  /** `saveKeyring` of the library: the whole file, nothing at all, or an exception. */
  datatype SaveEnd = Saved | NothingWritten | Thrown | SaveDied

  /** What a save makes of the directory is what a write makes of it; how it ends is told apart further. */
  function SavedAs(files: Files, name: string, content: string, fault: Fault): (Files, SaveEnd) {
    (Written(files, name, content, fault).0,
     match fault
     case Fine => Saved
     case Fails(left) => if left == None then NothingWritten else Thrown
     case Dies(_, _) => SaveDied)
  }

  method SaveKeyring(disk: Disk, name: string, content: string) returns (r: SaveEnd)
    modifies disk
    ensures (disk.files, r) == SavedAs(old(disk.files), name, content, disk.script(disk.ops))
    ensures disk.ops == old(disk.ops) + 1
  {
    var op := disk.Write(name, content);
    match op {
      case Done => return Saved;
      case Dead => return SaveDied;
      case Failed => return if disk.script(disk.ops).left == None then NothingWritten else Thrown;
    }
  }

  function BackupName(target: string): string {
    "sicherung-01." + target
  }

  /** All numbered names for a backup are taken. */
  predicate NoBackupName(files: Files, target: string) {
    FreeName(BackupName(target), files) == None
  }

  /** The copy under the first free number. */
  function Secured(files: Files, target: string, script: nat -> Fault, k: nat): (Files, Op, nat) {
    match FreeName(BackupName(target), files)
    case None => (files, Failed, k)
    case Some(name) =>
      var (after, op) := Copied(files, target, name, script(k + 1));
      (after, op, k + 1)
  }

  /** `ebicsSchluesseldateiSichern`. */
  method Sichern(disk: Disk, target: string) returns (op: Op)
    modifies disk
    ensures (disk.files, op, disk.ops) == Secured(old(disk.files), target, disk.script, old(disk.ops))
    ensures target in old(disk.files) && op.Done? ==> NewBackup(old(disk.files), disk.files, target, old(disk.files)[target])
    ensures target in old(disk.files) ==> OthersKept(old(disk.files), disk.files, target)
  {
    hide Candidate, NewBackup, OthersKept, BackupName;
    if target in disk.files {
      SecuredRight(disk.files, target, disk.script, disk.ops);
    }
    var sicherung := FreierPfad(BackupName(target), disk.files);
    if sicherung == None {
      return Failed;
    }
    op := disk.Copy(target, sicherung.value);
  }

  datatype End = Placed | Refused | Died

  datatype Stored = Stored(files: Files, ops: nat, end: End)

  /** The second half: the hidden twin goes, is written anew, and is renamed. */
  function Replaced(files: Files, target: string, content: string, script: nat -> Fault, k: nat): Stored {
    var twin := Hidden(target);
    var (cleared, removed) := Unlinked(files, twin, script(k + 1));
    if removed.Dead? then Stored(cleared, k + 1, Died)
    else
      var (written, saved) := SavedAs(cleared, twin, content, script(k + 2));
      if saved.SaveDied? then Stored(written, k + 2, Died)
      else if saved.Thrown? || twin !in written then Stored(written, k + 2, Refused)
      else
        var (renamed, moved) := Renamed(written, twin, target, script(k + 3));
        match moved
        case Done => Stored(renamed, k + 3, Placed)
        case Dead => Stored(renamed, k + 3, Died)
        case Failed =>
          var (gone, last) := Unlinked(renamed, twin, script(k + 4));
          Stored(gone, k + 4, if last.Dead? then Died else Refused)
  }

  method Ersetzen(disk: Disk, target: string, content: string) returns (r: End)
    modifies disk
    ensures Stored(disk.files, disk.ops, r) == Replaced(old(disk.files), target, content, disk.script, old(disk.ops))
    ensures KeyFileFrom(old(disk.files), disk.files, target, content, r) && OthersKept(old(disk.files), disk.files, target)
  {
    hide KeyFileFrom, OthersKept, Hidden;
    ReplacedRight(disk.files, target, content, disk.script, disk.ops);
    ReplacedOthers(disk.files, target, content, disk.script, disk.ops);
    var zwischen := Hidden(target);
    var removed := disk.Unlink(zwischen);
    if removed.Dead? {
      return Died;
    }
    var saved := SaveKeyring(disk, zwischen, content);
    if saved.SaveDied? {
      return Died;
    }
    if saved.Thrown? || zwischen !in disk.files {
      return Refused;
    }
    var renamed := disk.Rename(zwischen, target);
    if renamed.Failed? {
      var gone := disk.Unlink(zwischen);
      return if gone.Dead? then Died else Refused;
    }
    r := if renamed.Dead? then Died else Placed;
  }

  function Storing(files: Files, target: string, content: string, script: nat -> Fault, k: nat): Stored {
    if target !in files then Replaced(files, target, content, script, k)
    else
      var (secured, op, n) := Secured(files, target, script, k);
      match op
      case Done => Replaced(secured, target, content, script, n)
      case Failed => Stored(secured, n, Refused)
      case Dead => Stored(secured, n, Died)
  }

  /** `ebicsHpbSpeichern`: back up, write under the hidden name, rename. */
  method Speichern(disk: Disk, target: string, content: string) returns (r: End)
    modifies disk
    ensures Stored(disk.files, disk.ops, r) == Storing(old(disk.files), target, content, disk.script, old(disk.ops))
    ensures target in old(disk.files) ==>
              StoresRight(old(disk.files), target, content, disk.script, old(disk.ops), Stored(disk.files, disk.ops, r))
  {
    hide Replaced, Secured, StoresRight, KeyFileFrom, OthersKept, NewBackup;
    if target in disk.files {
      StoringIsRight(disk.files, target, content, disk.script, disk.ops);
    }
    if target in disk.files {
      var copied := Sichern(disk, target);
      if !copied.Done? {
        return if copied.Dead? then Died else Refused;
      }
    }
    r := Ersetzen(disk, target, content);
  }

  // ----- what replacing does ---------------------------------------------------------------

  /** Nothing but the key file and its hidden twin has changed or gone. */
  predicate OthersKept(before: Files, after: Files, target: string) {
    forall name | name in before && name != target && name != Hidden(target) :: name in after && after[name] == before[name]
  }

  /** A file that was not there before holds this content. */
  ghost predicate NewBackup(before: Files, after: Files, target: string, content: string) {
    exists name :: name != target && name != Hidden(target) && name !in before && name in after && after[name] == content
  }

  function Current(files: Files, target: string): Option<string> {
    if target in files then Some(files[target]) else None
  }

  function Twin(files: Files, target: string): Option<string> {
    Current(files, Hidden(target))
  }

  /** A backup never lands on the key file or on its hidden twin. */
  lemma BackupApart(target: string, number: nat)
    ensures Candidate(BackupName(target), number) != target
    ensures Candidate(BackupName(target), number) != Hidden(target)
  {
    var name := BackupName(target);
    DotAfter(name, 12);
    assert Stem(name)[0] == 's';
  }

  lemma BackupIsNew(target: string, files: Files)
    ensures var r := FreeName(BackupName(target), files);
            r.Some? ==> r.value !in files && r.value != target && r.value != Hidden(target)
  {
    hide Candidate, BackupName, FreeFrom;
    FreeFromIsFirst(BackupName(target), files, 1);
    var r := FreeName(BackupName(target), files);
    if r.Some? {
      var number :| 1 <= number <= LAST_NUMBER && r.value == Candidate(BackupName(target), number);
      BackupApart(target, number);
    }
  }

  /** The backup gets a new name, and everything else stays as it was. */
  lemma SecuredRight(files: Files, target: string, script: nat -> Fault, k: nat)
    requires target in files
    ensures var (after, op, n) := Secured(files, target, script, k);
            && k <= n && OthersKept(files, after, target)
            && Current(after, target) == Current(files, target) && Twin(after, target) == Twin(files, target)
            && (op.Done? ==> n == k + 1 && NewBackup(files, after, target, files[target]))
            && (op.Dead? <==> Deadly(script, k, n))
            && (!op.Done? ==> Faulty(script, k, n) || NoBackupName(files, target))
  {
    hide FreeName, BackupName, Hidden, Deadly;
    BackupIsNew(target, files);
    DeadlyOn(script, k, k);
    var (after, op, n) := Secured(files, target, script, k);
    var free := FreeName(BackupName(target), files);
    if free.Some? {
      assert !op.Done? ==> !script(k + 1).Fine?;
      if op.Done? {
        assert after[free.value] == files[target];
      }
    }
  }

  /** What the save of a run left is the whole file or nothing. */
  predicate WholeSave(fault: Fault) {
    fault.Fine? || fault.left == None
  }

  /** The key file after the second half: the old one, the new one, or the twin that was there before. */
  predicate KeyFileFrom(before: Files, after: Files, target: string, content: string, end: End) {
    && (target in before ==> target in after)
    && Current(after, target) in {Current(before, target), Some(content), Twin(before, target)}
    && (end.Placed? ==> target in after && Current(after, target) in {Some(content), Twin(before, target)})
    && (end.Refused? ==> Current(after, target) == Current(before, target))
  }

  lemma ReplacedOthers(files: Files, target: string, content: string, script: nat -> Fault, k: nat)
    ensures OthersKept(files, Replaced(files, target, content, script, k).files, target)
  {
    hide Hidden;
  }

  lemma ReplacedRight(files: Files, target: string, content: string, script: nat -> Fault, k: nat)
    ensures var r := Replaced(files, target, content, script, k);
            KeyFileFrom(files, r.files, target, content, r.end)
  {
    var twin := Hidden(target);
    assert twin != target;
    hide Hidden;
  }

  /** The twin after the second half: none, the content, or the one that was there before. */
  lemma TwinRight(files: Files, target: string, content: string, script: nat -> Fault, k: nat)
    requires WholeSave(script(k + 2))
    ensures Twin(Replaced(files, target, content, script, k).files, target) in {None, Some(content), Twin(files, target)}
  {
    var twin := Hidden(target);
    assert twin != target;
    hide Hidden;
  }

  /** Only a fault prevents it. */
  lemma ReplacedUnlessFault(files: Files, target: string, content: string, script: nat -> Fault, k: nat)
    ensures var r := Replaced(files, target, content, script, k);
            k < r.ops && (r.end.Placed? || Faulty(script, k, r.ops)) && (r.end.Died? <==> Deadly(script, k, r.ops))
  {
    var twin := Hidden(target);
    hide Hidden, Deadly;
    DeadlyOn(script, k, k);
    DeadlyOn(script, k, k + 1);
    DeadlyOn(script, k, k + 2);
    DeadlyOn(script, k, k + 3);
    var (cleared, removed) := Unlinked(files, twin, script(k + 1));
    assert removed.Dead? ==> !script(k + 1).Fine?;
    if !removed.Dead? {
      var (written, saved) := SavedAs(cleared, twin, content, script(k + 2));
      assert !saved.Saved? ==> !script(k + 2).Fine?;
      if !saved.SaveDied? && !saved.Thrown? && twin in written {
        assert !Renamed(written, twin, target, script(k + 3)).1.Done? ==> !script(k + 3).Fine?;
      }
    }
  }

  /** One save, whatever happens at each file operation. */
  ghost predicate StoresRight(before: Files, target: string, content: string, script: nat -> Fault, k: nat, r: Stored)
    requires target in before
  {
    && k <= r.ops && OthersKept(before, r.files, target)
    && KeyFileFrom(before, r.files, target, content, r.end)
    && (Current(r.files, target) != Current(before, target) || r.end.Placed? ==>
          NewBackup(before, r.files, target, before[target]))
    && (WholeSave(script(k + 3)) ==> Twin(r.files, target) in {None, Some(content), Twin(before, target)})
    && (r.end.Placed? || Faulty(script, k, r.ops) || NoBackupName(before, target))
    && (r.end.Died? <==> Deadly(script, k, r.ops))
  }

  /** Back up, then replace: if the key file has changed, its old content lies in a new backup. */
  lemma StoringIsRight(files: Files, target: string, content: string, script: nat -> Fault, k: nat)
    requires target in files
    ensures StoresRight(files, target, content, script, k, Storing(files, target, content, script, k))
  {
    hide Replaced, Secured, Hidden, BackupName, FreeName, Faulty, Deadly, NewBackup, OthersKept, NoBackupName;
    SecuredRight(files, target, script, k);
    var (secured, op, n) := Secured(files, target, script, k);
    if op.Done? {
      ReplacedOthers(secured, target, content, script, n);
      ReplacedRight(secured, target, content, script, n);
      ReplacedUnlessFault(secured, target, content, script, n);
      if WholeSave(script(n + 2)) {
        TwinRight(secured, target, content, script, n);
      }
      var r := Replaced(secured, target, content, script, n);
      OthersOn(files, secured, r.files, target);
      BackupStays(files, secured, r.files, target, files[target]);
      FaultySince(script, k, n, r.ops);
      DeadlyParts(script, k, n, r.ops);
    }
  }

  lemma FaultySince(script: nat -> Fault, k: nat, n: nat, end: nat)
    requires k <= n <= end
    ensures Faulty(script, n, end) ==> Faulty(script, k, end)
  {
  }

  lemma OthersOn(before: Files, middle: Files, after: Files, target: string)
    requires OthersKept(before, middle, target) && OthersKept(middle, after, target)
    ensures OthersKept(before, after, target)
  {
  }

  lemma BackupStays(before: Files, middle: Files, after: Files, target: string, content: string)
    requires NewBackup(before, middle, target, content) && OthersKept(middle, after, target)
    ensures NewBackup(before, after, target, content)
  {
  }

  // ----- one run ---------------------------------------------------------------------------

  datatype BankKey = BankKey(digest: string, certificate: Option<string>)

  /** The key file's content: both bank keys, and the rest, which no run here touches. */
  datatype Keyring = Keyring(x: Option<BankKey>, e: Option<BankKey>, own: string)

  /** The library's file format. */
  datatype Codec = Codec(load: string -> Option<Keyring>, save: Keyring -> string)

  ghost predicate Lossless(codec: Codec) {
    forall k: Keyring :: codec.load(codec.save(k)) == Some(k)
  }

  function DigestOf(key: Option<BankKey>): Digest {
    match key
    case None => Digest("", None)
    case Some(k) =>
      Digest(Grouped(k.digest),
             if k.certificate.Some? && k.certificate.value != "" then Some(Grouped(k.certificate.value)) else None)
  }

  function SummaryOf(k: Keyring): Summary {
    Summary(DigestOf(k.x), DigestOf(k.e))
  }

  predicate HasKeys(s: Summary) {
    s.x.key != "" || s.e.key != ""
  }

  /** The keys a bank has just delivered. */
  datatype Delivered = Delivered(x: Option<BankKey>, e: Option<BankKey>)

  predicate Changed(old_: Summary, new_: Summary) {
    exists role :: KeyDiffers(old_, new_, role) || CertificateDiffers(old_, new_, role)
  }

  /** `ebicsHpbPruefen` gets the two summaries and nothing else. */
  method Pruefung(old_: Summary, new_: Summary) returns (exit: nat)
    ensures exit == if Changed(old_, new_) then 4 else 0
  {
    var lage := PruefsummenLage(old_, new_);
    if lage.keys == [] && lage.certificatesOnly == [] {
      assert forall role :: role !in lage.keys && role !in lage.certificatesOnly;
      return 0;
    }
    if lage.keys != [] {
      assert lage.keys[0] in lage.keys;
    } else {
      assert lage.certificatesOnly[0] in lage.certificatesOnly;
    }
    return 4;
  }

  /** What a run comes to before it writes anything. */
  datatype Decision = Refuse | Fail | Report(changed: bool) | Mismatch | Store(content: string)

  function Decide(codec: Codec, ready: bool, current: Option<string>, arguments: seq<string>, bank: Option<Delivered>): Decision {
    var call := ReadAll(arguments);
    if call == None || !Whole(call.value) || !ready || current == None then Refuse
    else
      match codec.load(current.value)
      case None => Fail
      case Some(keyring) =>
        if call.value.modus == Erstabruf && HasKeys(SummaryOf(keyring)) then Refuse
        else if bank == None then Fail
        else
          var changed := keyring.(x := bank.value.x, e := bank.value.e);
          if call.value.modus == Pruefen then Report(Changed(SummaryOf(keyring), SummaryOf(changed)))
          else if call.value.modus == Uebernehmen
                  && !(Confirms(call.value.x002, DigestOf(changed.x).key) && Confirms(call.value.e002, DigestOf(changed.e).key))
          then Mismatch
          else Store(codec.save(changed))
  }

  /** One call of the script: its arguments, whether the configuration is usable, what the bank delivers, and what
      happens at every file operation. */
  datatype Run = Run(ready: bool, arguments: seq<string>, bank: Option<Delivered>, script: nat -> Fault)

  function Deciding(codec: Codec, target: string, files: Files, run: Run): Decision {
    Decide(codec, run.ready, Current(files, target), run.arguments, run.bank)
  }

  /** The directory after a call, and the exit code of the script; none if the process died. */
  datatype Ran = Ran(files: Files, ops: nat, exit: Option<nat>)

  function ExitOf(end: End): Option<nat> {
    match end
    case Placed => Some(0)
    case Refused => Some(2)
    case Died => None
  }

  function Running(codec: Codec, target: string, files: Files, run: Run, k: nat): Ran {
    match Deciding(codec, target, files, run)
    case Refuse => Ran(files, k, Some(1))
    case Fail => Ran(files, k, Some(2))
    case Report(changed) => Ran(files, k, Some(if changed then 4 else 0))
    case Mismatch => Ran(files, k, Some(5))
    case Store(content) =>
      var r := Storing(files, target, content, run.script, k);
      Ran(r.files, r.ops, ExitOf(r.end))
  }

  /** `ebicsHpbLauf` with the exit code of the script. */
  method Lauf(disk: Disk, target: string, codec: Codec, run: Run) returns (exit: Option<nat>)
    requires run.script == disk.script
    modifies disk
    ensures Ran(disk.files, disk.ops, exit) == Running(codec, target, old(disk.files), run, old(disk.ops))
    ensures RunRight(codec, target, old(disk.files), run, old(disk.ops), Ran(disk.files, disk.ops, exit))
  {
    RunningIsRight(codec, target, disk.files, run, disk.ops);
    hide Normalised, ReadAll, Grouped, Confirms, HasKeys, SummaryOf, DigestOf, Storing, RunRight, StoresRight;
    var aufruf := UebernahmeArgumente(run.arguments);
    if aufruf == None || !run.ready || target !in disk.files {
      return Some(1);
    }
    var keyring := codec.load(disk.files[target]);
    if keyring == None {
      return Some(2);
    }
    var alt := SummaryOf(keyring.value);
    if aufruf.value.modus == Erstabruf && HasKeys(alt) {
      return Some(1);
    }
    if run.bank == None {
      return Some(2);
    }
    var changed := keyring.value.(x := run.bank.value.x, e := run.bank.value.e);
    var neu := SummaryOf(changed);
    assert neu.x == DigestOf(changed.x) && neu.e == DigestOf(changed.e) by { SummaryParts(changed); }
    if aufruf.value.modus == Pruefen {
      var code := Pruefung(alt, neu);
      return Some(code);
    }
    if aufruf.value.modus == Uebernehmen {
      var confirmed := UebernahmePruefen(aufruf.value.x002, aufruf.value.e002, neu);
      if !confirmed {
        return Some(5);
      }
    }
    var r := Speichern(disk, target, codec.save(changed));
    exit := ExitOf(r);
  }

  lemma SummaryParts(k: Keyring)
    ensures SummaryOf(k).x == DigestOf(k.x) && SummaryOf(k).e == DigestOf(k.e)
  {
  }

  // ----- what a run may do -----------------------------------------------------------------

  /** No key is stored for the role. */
  predicate Keyless(key: Option<BankKey>) {
    key == None || key.value.digest == ""
  }

  /** The operator has typed the digest of this key: the same hex digits, and at least one. */
  predicate Confirmed(input: string, key: Option<BankKey>) {
    key.Some? && Nibbles(input) != [] && Nibbles(input) == Nibbles(key.value.digest)
  }

  /** The stored bank keys answer for themselves: there were none before and the call asks for no mode, or it is an
      adoption and the operator confirmed the digests of exactly these two keys. */
  ghost predicate Vouched(run: Run, before: Keyring, after: Keyring) {
    || ((forall i | 0 <= i < |run.arguments| :: !IsMode(run.arguments[i])) && Keyless(before.x) && Keyless(before.e))
    || ("--uebernehmen" in run.arguments
        && exists x, e :: && LastInput(run.arguments, "--x002=", x) && LastInput(run.arguments, "--e002=", e)
                          && Confirmed(x, after.x) && Confirmed(e, after.e))
  }

  /** A run that has this content to store has read the keyring before, puts only the bank's keys into it, and has
      vouched for them. */
  ghost predicate MayStore(codec: Codec, target: string, files: Files, run: Run, content: string) {
    && target in files && codec.load(files[target]).Some? && codec.load(content).Some?
    && var before, after := codec.load(files[target]).value, codec.load(content).value;
       && run.bank == Some(Delivered(after.x, after.e)) && after.own == before.own
       && Vouched(run, before, after)
  }

  lemma StoreIsVouched(codec: Codec, target: string, files: Files, run: Run, content: string)
    requires Lossless(codec) && Deciding(codec, target, files, run) == Store(content)
    ensures MayStore(codec, target, files, run, content)
  {
    hide Confirms, HasKeys, DigestOf, ReadAll, LastInput, Keyless, Confirmed, IsMode;
    var before, after := codec.load(files[target]).value, codec.load(content).value;
    var a := ReadAll(run.arguments).value;
    ReadAllIsExact(run.arguments);
    ModeSaid(run.arguments, a);
    HasKeysIsStored(before);
    ConfirmsIsConfirmed(a.x002, after.x);
    ConfirmsIsConfirmed(a.e002, after.e);
    if a.modus == Uebernehmen {
      assert LastInput(run.arguments, "--x002=", a.x002) && LastInput(run.arguments, "--e002=", a.e002);
    }
  }

  lemma HasKeysIsStored(k: Keyring)
    ensures HasKeys(SummaryOf(k)) <==> !Keyless(k.x) || !Keyless(k.e)
  {
  }

  /** A confirmed key is the delivered key: the digest of the bank's letter confirms a key, in whatever case and grouping,
      exactly if it has the hex digits of the key's own digest. */
  lemma ConfirmsIsConfirmed(input: string, key: Option<BankKey>)
    ensures Confirms(input, DigestOf(key).key) <==> Confirmed(input, key)
  {
    NormalisedIsTheDigits(input, DigestOf(key).key);
    if key.Some? {
      GroupingIsPresentation(key.value.digest);
      NormalisedIsTheDigits(DigestOf(key).key, key.value.digest);
    }
    hide Normalised, Nibbles, Grouped;
    assert key == None ==> Nibbles("") == [] by { NoNibbles(); }
  }

  lemma NoNibbles()
    ensures Nibbles("") == [] && Normalised("") == ""
  {
  }

  /** What a run may do to the directory of the key file. */
  ghost predicate RunRight(codec: Codec, target: string, before: Files, run: Run, k: nat, after: Ran) {
    var decision := Deciding(codec, target, before, run);
    && OthersKept(before, after.files, target)
    && (!decision.Store? ==> after.files == before)
    && (decision.Store? ==>
          target in before
          && StoresRight(before, target, decision.content, run.script, k,
                         Storing(before, target, decision.content, run.script, k)))
  }

  lemma RunningIsRight(codec: Codec, target: string, before: Files, run: Run, k: nat)
    ensures RunRight(codec, target, before, run, k, Running(codec, target, before, run, k))
  {
    hide Storing, ReadAll, Confirms, SummaryOf, HasKeys, DigestOf;
    var decision := Deciding(codec, target, before, run);
    if decision.Store? {
      StoringIsRight(before, target, decision.content, run.script, k);
    }
  }

  // ----- the hidden twin of a dead run -----------------------------------------------------

  /** The key file is what it was or what the run had to store. */
  predicate OldOrNew(codec: Codec, target: string, files: Files, run: Run, after: Files) {
    var decision := Deciding(codec, target, files, run);
    Current(after, target) == Current(files, target) || (decision.Store? && Current(after, target) == Some(decision.content))
  }

  /** There is no twin from an earlier run that could take the place of the content: none at all, or one that is equal
      to the key file or to the content, or the run stops for want of a backup name. */
  predicate NoForeignTwin(codec: Codec, target: string, files: Files, run: Run) {
    var decision := Deciding(codec, target, files, run);
    decision.Store? ==>
      NoBackupName(files, target) || Twin(files, target) in {None, Current(files, target), Some(decision.content)}
  }

  /** The run with other luck. */
  ghost predicate EndsOldOrNew(codec: Codec, target: string, files: Files, run: Run, script: nat -> Fault) {
    OldOrNew(codec, target, files, run, Running(codec, target, files, run.(script := script), 0).files)
  }

  /** Whatever happens at every file operation, the key file ends as the old one or the one to be stored: this holds
      of a run if and only if there was no foreign twin before it. */
  lemma OldOrDelivered(codec: Codec, target: string, files: Files, run: Run)
    ensures (forall script :: EndsOldOrNew(codec, target, files, run, script)) <==> NoForeignTwin(codec, target, files, run)
  {
    hide Storing, Decide, NoBackupName, FreeName, Hidden;
    var decision := Deciding(codec, target, files, run);
    if NoForeignTwin(codec, target, files, run) {
      forall script ensures EndsOldOrNew(codec, target, files, run, script) {
        OldOrNewUnlessTwin(codec, target, files, run.(script := script), 0);
      }
    } else {
      RunningIsRight(codec, target, files, run, 0);
      StuckTwin(files, target, decision.content);
      assert !EndsOldOrNew(codec, target, files, run, Unlucky);
    }
  }

  lemma OldOrNewUnlessTwin(codec: Codec, target: string, files: Files, run: Run, k: nat)
    requires NoForeignTwin(codec, target, files, run)
    ensures OldOrNew(codec, target, files, run, Running(codec, target, files, run, k).files)
  {
    hide Decide, Hidden, FreeName, Storing, NoBackupName;
    var decision := Deciding(codec, target, files, run);
    RunningIsRight(codec, target, files, run, k);
    if decision.Store? && NoBackupName(files, target) {
      NothingStored(files, target, decision.content, run.script, k);
    }
  }

  /** The run ends with success only if the content is current. */
  ghost predicate SuccessIsTrue(codec: Codec, target: string, files: Files, run: Run, script: nat -> Fault) {
    var decision, after := Deciding(codec, target, files, run), Running(codec, target, files, run.(script := script), 0);
    decision.Store? && after.exit == Some(0) ==> Current(after.files, target) == Some(decision.content)
  }

  /** The exit code 0 of a run that stores means that the content is current, whatever happens, if and only if no other
      twin was there before. */
  lemma SuccessIsDelivered(codec: Codec, target: string, files: Files, run: Run)
    ensures (forall script :: SuccessIsTrue(codec, target, files, run, script)) <==>
            var decision := Deciding(codec, target, files, run);
            decision.Store? ==> NoBackupName(files, target) || Twin(files, target) in {None, Some(decision.content)}
  {
    hide Decide, FreeName, Hidden, Replaced;
    var decision := Deciding(codec, target, files, run);
    if decision.Store? {
      RunningIsRight(codec, target, files, run, 0);
      if NoBackupName(files, target) || Twin(files, target) in {None, Some(decision.content)} {
        forall script ensures SuccessIsTrue(codec, target, files, run, script) {
          Succeeds(codec, target, files, run.(script := script));
        }
      } else {
        StuckTwin(files, target, decision.content);
        assert !SuccessIsTrue(codec, target, files, run, Unlucky);
      }
    }
  }

  lemma Succeeds(codec: Codec, target: string, files: Files, run: Run)
    requires var decision := Deciding(codec, target, files, run);
             && decision.Store?
             && (NoBackupName(files, target) || Twin(files, target) in {None, Some(decision.content)})
    ensures SuccessIsTrue(codec, target, files, run, run.script)
  {
    hide Decide, FreeName, Hidden, OthersKept, Faulty, NewBackup, WholeSave, NoBackupName;
    hide Storing;
    var decision := Deciding(codec, target, files, run);
    RunningIsRight(codec, target, files, run, 0);
    if NoBackupName(files, target) {
      NothingStored(files, target, decision.content, run.script, 0);
    }
  }

  lemma NothingStored(files: Files, target: string, content: string, script: nat -> Fault, k: nat)
    requires target in files && NoBackupName(files, target)
    ensures Storing(files, target, content, script, k) == Stored(files, k, Refused)
  {
  }

  /** The twin cannot be removed, and the library writes nothing. */
  function Unlucky(n: nat): Fault {
    if n == 2 || n == 3 then Fails(None) else Fine
  }

  /** Then the twin becomes the key file, and the run ends with success. */
  lemma StuckTwin(files: Files, target: string, content: string)
    requires target in files && Hidden(target) in files && !NoBackupName(files, target)
    ensures var r := Storing(files, target, content, Unlucky, 0);
            r.end.Placed? && Current(r.files, target) == Twin(files, target)
  {
    hide FreeName, BackupName, Hidden;
    BackupIsNew(target, files);
  }

  // ----- all runs --------------------------------------------------------------------------

  /** `states[i]` is the directory before run `i`; each is what the run before has made of it. */
  predicate History(codec: Codec, target: string, states: seq<Files>, runs: seq<Run>) {
    && |states| == |runs| + 1 && target in states[0]
    && forall i | 0 <= i < |runs| :: states[i + 1] == Running(codec, target, states[i], runs[i], 0).files
  }

  /** The content is current, or an untouched file beside the key file holds it. */
  ghost predicate Survives(files: Files, target: string, content: string) {
    || (target in files && files[target] == content)
    || exists name :: name != target && name != Hidden(target) && name in files && files[name] == content
  }

  lemma SurvivesStep(codec: Codec, target: string, before: Files, run: Run, content: string)
    requires target in before && Survives(before, target, content)
    ensures target in Running(codec, target, before, run, 0).files
    ensures Survives(Running(codec, target, before, run, 0).files, target, content)
  {
    RunningIsRight(codec, target, before, run, 0);
    hide Running, Decide, Storing, Hidden, Faulty;
    var decision := Deciding(codec, target, before, run);
    if decision.Store? {
      var after := Storing(before, target, decision.content, run.script, 0).files;
      assert Running(codec, target, before, run, 0).files == after by { RunningStores(codec, target, before, run); }
      SurvivesStorage(before, after, target, content);
    }
  }

  lemma RunningStores(codec: Codec, target: string, files: Files, run: Run)
    ensures var decision := Deciding(codec, target, files, run);
            Running(codec, target, files, run, 0).files ==
            if decision.Store? then Storing(files, target, decision.content, run.script, 0).files else files
  {
    hide Decide, Storing;
  }

  lemma SurvivesStorage(before: Files, after: Files, target: string, content: string)
    requires target in before && target in after && OthersKept(before, after, target) && Survives(before, target, content)
    requires after[target] != before[target] ==> NewBackup(before, after, target, before[target])
    ensures Survives(after, target, content)
  {
    hide Hidden;
  }

  lemma {:induction false} TargetStays(codec: Codec, target: string, states: seq<Files>, runs: seq<Run>, j: nat)
    requires History(codec, target, states, runs) && j <= |runs|
    ensures target in states[j]
    decreases j
  {
    hide Running;
    if j > 0 {
      TargetStays(codec, target, states, runs, j - 1);
      SurvivesStep(codec, target, states[j - 1], runs[j - 1], states[j - 1][target]);
      assert states[j - 1 + 1] == Running(codec, target, states[j - 1], runs[j - 1], 0).files;
    }
  }

  /** No key file is ever lost: every content that was ever current is, after any sequence of runs with failures and
      deaths at any file operation, still current or in an untouched backup. */
  lemma {:induction false} EveryKeyringSurvives(codec: Codec, target: string, states: seq<Files>, runs: seq<Run>, i: nat, j: nat)
    requires History(codec, target, states, runs) && i <= j <= |runs|
    ensures target in states[i] && Survives(states[j], target, states[i][target])
    decreases j
  {
    hide Running, Survives;
    TargetStays(codec, target, states, runs, i);
    if i < j {
      EveryKeyringSurvives(codec, target, states, runs, i, j - 1);
      TargetStays(codec, target, states, runs, j - 1);
      SurvivesStep(codec, target, states[j - 1], runs[j - 1], states[i][target]);
      assert states[j - 1 + 1] == Running(codec, target, states[j - 1], runs[j - 1], 0).files;
    } else {
      CurrentSurvives(states[i], target);
    }
  }

  lemma CurrentSurvives(files: Files, target: string)
    requires target in files
    ensures Survives(files, target, files[target])
  {
  }

  /** Between two times at which the key file differs, some run has put the later one there. */
  lemma {:induction false} LastChange(codec: Codec, target: string, states: seq<Files>, runs: seq<Run>, i: nat, j: nat)
    returns (m: nat)
    requires History(codec, target, states, runs) && i <= j <= |runs|
    requires Current(states[i], target) != Current(states[j], target)
    ensures i <= m < j && Current(states[m + 1], target) == Current(states[j], target)
    ensures Current(states[m], target) != Current(states[m + 1], target)
    decreases j
  {
    hide Running;
    if Current(states[j - 1], target) == Current(states[j], target) {
      m := LastChange(codec, target, states, runs, i, j - 1);
    } else {
      m := j - 1;
    }
  }

  /** Whatever the key file holds later than at the start, one run had it to store, from no bank keys or with both
      digests confirmed, and has left the rest of the keyring untouched; no run may have found a foreign twin. */
  lemma BankKeysAreVouchedFor(codec: Codec, target: string, states: seq<Files>, runs: seq<Run>, j: nat)
    returns (m: nat)
    requires Lossless(codec) && History(codec, target, states, runs) && j <= |runs|
    requires forall i | 0 <= i < |runs| :: NoForeignTwin(codec, target, states[i], runs[i])
    requires target in states[j] && states[0][target] != states[j][target]
    ensures m < j && MayStore(codec, target, states[m], runs[m], states[j][target])
  {
    hide Running, MayStore, NoForeignTwin, Decide, Hidden;
    m := LastChange(codec, target, states, runs, 0, j);
    OldOrNewUnlessTwin(codec, target, states[m], runs[m], 0);
    assert states[m + 1] == Running(codec, target, states[m], runs[m], 0).files;
    StoreIsVouched(codec, target, states[m], runs[m], states[j][target]);
  }

  /** Every save of a run leaves the whole file or nothing; it is the third file operation, after the backup and the
      removal of the twin. */
  predicate WholeSaves(runs: seq<Run>) {
    forall i | 0 <= i < |runs| :: WholeSave(runs[i].script(3))
  }

  /** Some run before `j` has had this content to store. */
  ghost predicate Originates(codec: Codec, target: string, states: seq<Files>, runs: seq<Run>, j: nat, content: string)
    requires |states| == |runs| + 1 && j <= |runs|
  {
    exists m | 0 <= m < j :: Deciding(codec, target, states[m], runs[m]) == Store(content)
  }

  /** The key file and its twin after a run come from there or from the run. */
  lemma OriginStep(codec: Codec, target: string, before: Files, run: Run, found: Option<string>)
    requires WholeSave(run.script(3)) && target in before
    requires var after := Running(codec, target, before, run, 0).files; found in {Current(after, target), Twin(after, target)}
    ensures || found in {None, Current(before, target), Twin(before, target)}
            || Deciding(codec, target, before, run) == Store(found.value)
  {
    RunningIsRight(codec, target, before, run, 0);
    RunningStores(codec, target, before, run);
    hide Running, Decide, Storing, Hidden, Faulty, NewBackup, OthersKept, NoBackupName;
  }

  /** The twin too: if there was none at the start, and saves leave whole files or nothing, then whatever lies in the
      key file or in its twin was there at the start or was vouched for by the run that had it to store. */
  lemma {:induction false} EveryTwinHasItsOrigin(
      codec: Codec, target: string, states: seq<Files>, runs: seq<Run>, j: nat, found: Option<string>)
    requires History(codec, target, states, runs) && j <= |runs|
    requires Twin(states[0], target) == None && WholeSaves(runs)
    requires found in {Current(states[j], target), Twin(states[j], target)}
    ensures found in {None, Current(states[0], target)} || Originates(codec, target, states, runs, j, found.value)
    decreases j
  {
    hide Running, Decide, Hidden;
    if j > 0 {
      TargetStays(codec, target, states, runs, j - 1);
      assert states[j - 1 + 1] == Running(codec, target, states[j - 1], runs[j - 1], 0).files;
      OriginStep(codec, target, states[j - 1], runs[j - 1], found);
      if found in {None, Current(states[j - 1], target), Twin(states[j - 1], target)} {
        if found != None {
          EveryTwinHasItsOrigin(codec, target, states, runs, j - 1, found);
        }
      } else {
        assert Deciding(codec, target, states[j - 1], runs[j - 1]) == Store(found.value);
      }
    }
  }

  /** With or without a stuck twin, the operator's own keys stay what they were in every key file that follows. */
  lemma {:induction false} OwnKeysStay(codec: Codec, target: string, states: seq<Files>, runs: seq<Run>, j: nat)
    requires Lossless(codec) && History(codec, target, states, runs) && j <= |runs|
    requires Twin(states[0], target) == None && WholeSaves(runs)
    ensures target in states[j]
    ensures || states[j][target] == states[0][target]
            || (&& codec.load(states[0][target]).Some? && codec.load(states[j][target]).Some?
                && codec.load(states[j][target]).value.own == codec.load(states[0][target]).value.own)
    decreases j
  {
    hide Running, Decide, Hidden, Vouched;
    TargetStays(codec, target, states, runs, j);
    EveryTwinHasItsOrigin(codec, target, states, runs, j, Some(states[j][target]));
    if states[j][target] != states[0][target] {
      var m: nat :| m < j && Deciding(codec, target, states[m], runs[m]) == Store(states[j][target]);
      StoreIsVouched(codec, target, states[m], runs[m], states[j][target]);
      OwnKeysStay(codec, target, states, runs, m);
    }
  }

  // ----- what each call does ---------------------------------------------------------------

  function DigestText(key: Option<BankKey>): string {
    if key.Some? then key.value.digest else ""
  }

  function CertificateOf(key: Option<BankKey>): string {
    if key.Some? && key.value.certificate.Some? then key.value.certificate.value else ""
  }

  /** Digest and certificate have the same hex digits. */
  predicate SameKey(a: Option<BankKey>, b: Option<BankKey>) {
    Nibbles(DigestText(a)) == Nibbles(DigestText(b)) && Nibbles(CertificateOf(a)) == Nibbles(CertificateOf(b))
  }

  lemma DigestsOf(key: Option<BankKey>)
    ensures Normalised(DigestOf(key).key) == Normalised(DigestText(key))
    ensures Normalised(CertificateText(DigestOf(key))) == Normalised(CertificateOf(key))
  {
    GroupingIsPresentation(DigestText(key));
    GroupingIsPresentation(CertificateOf(key));
    NoNibbles();
    hide Normalised, Grouped;
    assert key == None ==> DigestOf(key).key == "";
  }

  lemma ChangedIsAKey(a: Keyring, b: Keyring)
    ensures Changed(SummaryOf(a), SummaryOf(b)) <==> !SameKey(a.x, b.x) || !SameKey(a.e, b.e)
  {
    hide Normalised, Nibbles, DigestOf, DigestText, CertificateOf, CertificateText;
    RoleDiffers(a, b, X002);
    RoleDiffers(a, b, E002);
    if Changed(SummaryOf(a), SummaryOf(b)) {
      var role :| KeyDiffers(SummaryOf(a), SummaryOf(b), role) || CertificateDiffers(SummaryOf(a), SummaryOf(b), role);
      assert role == X002 || role == E002;
    }
  }

  lemma RoleDiffers(a: Keyring, b: Keyring, role: Role)
    ensures KeyDiffers(SummaryOf(a), SummaryOf(b), role) || CertificateDiffers(SummaryOf(a), SummaryOf(b), role)
       <==> (if role == X002 then !SameKey(a.x, b.x) else !SameKey(a.e, b.e))
  {
    hide Normalised, Nibbles, DigestOf, DigestText, CertificateOf, CertificateText;
    var k, l := if role == X002 then a.x else a.e, if role == X002 then b.x else b.e;
    DigestsOf(k);
    DigestsOf(l);
    NormalisedIsTheDigits(DigestText(k), DigestText(l));
    NormalisedIsTheDigits(CertificateOf(k), CertificateOf(l));
  }

  /** The calls the script accepts: readable, with both digests exactly for an adoption. */
  ghost predicate WellCalled(arguments: seq<string>) {
    Legible(arguments) && exists x, e :: Inputs(arguments, x, e) && InputsFit(arguments, x, e)
  }

  predicate Inputs(arguments: seq<string>, x: string, e: string) {
    LastInput(arguments, "--x002=", x) && LastInput(arguments, "--e002=", e)
  }

  predicate InputsFit(arguments: seq<string>, x: string, e: string) {
    if "--uebernehmen" in arguments then x != "" && e != "" else x == "" && e == ""
  }

  lemma LastInputUnique(arguments: seq<string>, option: string, a: string, b: string)
    requires LastInput(arguments, option, a) && LastInput(arguments, option, b)
    ensures a == b
  {
    hide Trim;
  }

  lemma WellCalledIsAccepted(arguments: seq<string>)
    ensures WellCalled(arguments) <==> ReadAll(arguments).Some? && Whole(ReadAll(arguments).value)
    ensures ReadAll(arguments).Some? ==> Says(arguments, ReadAll(arguments).value)
  {
    hide ReadAll, LastInput, Legible;
    ReadAllIsExact(arguments);
    if ReadAll(arguments).Some? {
      var a := ReadAll(arguments).value;
      assert Inputs(arguments, a.x002, a.e002);
      if x, e :| Inputs(arguments, x, e) && InputsFit(arguments, x, e) {
        LastInputUnique(arguments, "--x002=", x, a.x002);
        LastInputUnique(arguments, "--e002=", e, a.e002);
      }
    }
  }

  /** A stored key is never replaced by a call that asks for no mode, whatever the bank delivers: the call exits with 1
      and leaves the directory as it was. */
  lemma StoredKeysStay(codec: Codec, target: string, files: Files, run: Run, k: nat)
    requires target in files && codec.load(files[target]).Some?
    requires var keyring := codec.load(files[target]).value; !Keyless(keyring.x) || !Keyless(keyring.e)
    requires forall i | 0 <= i < |run.arguments| :: !IsMode(run.arguments[i])
    ensures Running(codec, target, files, run, k) == Ran(files, k, Some(1))
  {
    hide ReadAll, HasKeys, SummaryOf, Keyless, IsMode;
    HasKeysIsStored(codec.load(files[target]).value);
    ReadAllIsExact(run.arguments);
    if ReadAll(run.arguments).Some? {
      ModeSaid(run.arguments, ReadAll(run.arguments).value);
    }
  }

  /** What each call does with a readable keyring: the first fetch stores where no key is stored; the comparison says
      whether a key or a certificate differs and changes nothing; the adoption stores exactly if both digests are
      confirmed, and exits with 5 otherwise; without an answer of the bank nothing happens. */
  lemma EachCall(codec: Codec, target: string, files: Files, run: Run, k: nat)
    requires target in files && codec.load(files[target]).Some? && run.ready
    requires WellCalled(run.arguments)
    ensures var (keyring, fetched, checks, adopts) :=
              (codec.load(files[target]).value, run.bank.Some?, "--pruefen" in run.arguments, "--uebernehmen" in run.arguments);
            var first := !checks && !adopts;
            && (fetched && first && Keyless(keyring.x) && Keyless(keyring.e) ==>
                  Deciding(codec, target, files, run) == Store(codec.save(With(keyring, run.bank.value))))
            && (fetched && checks ==>
                  var same := SameKey(keyring.x, run.bank.value.x) && SameKey(keyring.e, run.bank.value.e);
                  Running(codec, target, files, run, k) == Ran(files, k, Some(if same then 0 else 4)))
            && (fetched && adopts ==> AdoptsConfirmed(codec, target, files, run, k))
            && (!fetched && !first ==> Running(codec, target, files, run, k) == Ran(files, k, Some(2)))
  {
    hide ReadAll, HasKeys, SummaryOf, Keyless, DigestOf, Confirms, Storing, LastInput, Nibbles, Confirmed, SameKey, Changed,
         WellCalled;
    WellCalledIsAccepted(run.arguments);
    var keyring, a := codec.load(files[target]).value, ReadAll(run.arguments).value;
    HasKeysIsStored(keyring);
    if run.bank.Some? {
      ChangedIsAKey(keyring, With(keyring, run.bank.value));
      ConfirmsIsConfirmed(a.x002, run.bank.value.x);
      ConfirmsIsConfirmed(a.e002, run.bank.value.e);
      hide Says;
      assert a.modus == Pruefen <==> "--pruefen" in run.arguments by { ModesOf(run.arguments, a); }
      assert a.modus == Uebernehmen <==> "--uebernehmen" in run.arguments by { ModesOf(run.arguments, a); }
      assert LastInput(run.arguments, "--x002=", a.x002) && LastInput(run.arguments, "--e002=", a.e002) by {
        ModesOf(run.arguments, a);
      }
    }
  }

  lemma ModesOf(arguments: seq<string>, a: Aufruf)
    requires Says(arguments, a)
    ensures a.modus == Pruefen <==> "--pruefen" in arguments
    ensures a.modus == Uebernehmen <==> "--uebernehmen" in arguments
    ensures LastInput(arguments, "--x002=", a.x002) && LastInput(arguments, "--e002=", a.e002)
  {
    hide LastInput;
  }

  /** Both inputs of the call confirm what the bank delivers, and it is stored; or one does not, and the exit code is 5. */
  ghost predicate AdoptsConfirmed(codec: Codec, target: string, files: Files, run: Run, k: nat)
    requires target in files && codec.load(files[target]).Some? && run.bank.Some?
  {
    exists x, e ::
      && LastInput(run.arguments, "--x002=", x) && LastInput(run.arguments, "--e002=", e)
      && if Confirmed(x, run.bank.value.x) && Confirmed(e, run.bank.value.e)
         then Deciding(codec, target, files, run)
              == Store(codec.save(With(codec.load(files[target]).value, run.bank.value)))
         else Running(codec, target, files, run, k) == Ran(files, k, Some(5))
  }

  /** A call that the script does not accept, or that has no configuration or no key file, exits with 1, and one whose
      key file cannot be read with 2. */
  lemma RefusedCalls(codec: Codec, target: string, files: Files, run: Run, k: nat)
    ensures !run.ready || target !in files || !WellCalled(run.arguments) ==>
              Running(codec, target, files, run, k) == Ran(files, k, Some(1))
    ensures run.ready && target in files && codec.load(files[target]) == None && WellCalled(run.arguments) ==>
              Running(codec, target, files, run, k) == Ran(files, k, Some(2))
  {
    hide ReadAll, WellCalled;
    WellCalledIsAccepted(run.arguments);
  }

  /** What the exit code of a run that stores says: 0 that the old keyring is in a new backup, 2 that the key file is the
      old one, none that the process died. */
  lemma ExitCodesOfStoring(codec: Codec, target: string, files: Files, run: Run, k: nat)
    requires Deciding(codec, target, files, run).Store?
    ensures target in files
    ensures var after := Running(codec, target, files, run, k);
            && after.exit in {Some(0), Some(2), None}
            && (after.exit == Some(0) ==> NewBackup(files, after.files, target, files[target]))
            && (after.exit == Some(2) ==> Current(after.files, target) == Current(files, target))
            && (after.exit != Some(0) ==> Faulty(run.script, k, after.ops) || NoBackupName(files, target))
            && (after.exit == None <==> Deadly(run.script, k, after.ops))
  {
    hide Decide, Storing, NewBackup, OthersKept, Faulty, Deadly, NoBackupName, WholeSave, Hidden;
    RunningIsRight(codec, target, files, run, k);
  }

  // ----- a stuck twin in two runs ----------------------------------------------------------

  /** The call that adopts two keys by their digests. */
  function Adoption(x: string, e: string): seq<string> {
    ["--uebernehmen", "--x002=" + x, "--e002=" + e]
  }

  predicate Typed(text: string) {
    Nibbles(text) != [] && text != "" && !IsSpace(text[0]) && !IsSpace(text[|text| - 1])
  }

  lemma AdoptionIsRead(x: string, e: string)
    requires Typed(x) && Typed(e)
    ensures ReadAll(Adoption(x, e)) == Some(Aufruf(Uebernehmen, x, e))
  {
    var call := Adoption(x, e);
    assert call[..2][..1][..0] == [] && call[..2][..1] == [ADOPT] && call[..2] == [ADOPT, X_INPUT + x];
    assert (X_INPUT + x)[7..] == x && (E_INPUT + e)[7..] == e;
    assert ADOPT[2] == 'u' && CHECK[2] == 'p' && (X_INPUT + x)[2] == 'x' && (E_INPUT + e)[2] == 'e';
    assert Trim(x) == x && Trim(e) == e;
    assert ReadAll(call[..2][..1]) == Some(Aufruf(Uebernehmen, "", ""));
    assert ReadAll(call[..2]) == Some(Aufruf(Uebernehmen, x, ""));
  }

  /** Bank keys without certificates, known by their digests. */
  function Keys(x: string, e: string): Delivered {
    Delivered(Some(BankKey(x, None)), Some(BankKey(e, None)))
  }

  function With(keyring: Keyring, keys: Delivered): Keyring {
    keyring.(x := keys.x, e := keys.e)
  }

  /** The operator confirms what the bank delivers. */
  function Adopting(x: string, e: string, script: nat -> Fault): Run {
    Run(true, Adoption(x, e), Some(Keys(x, e)), script)
  }

  lemma AdoptingStores(codec: Codec, target: string, files: Files, x: string, e: string, script: nat -> Fault)
    requires Typed(x) && Typed(e) && target in files && codec.load(files[target]).Some?
    ensures Deciding(codec, target, files, Adopting(x, e, script))
            == Store(codec.save(With(codec.load(files[target]).value, Keys(x, e))))
  {
    hide ReadAll, Adoption, Confirms, DigestOf, Decide, Nibbles, Grouped, IsSpace;
    AdoptionIsRead(x, e);
    ConfirmsIsConfirmed(x, Some(BankKey(x, None)));
    ConfirmsIsConfirmed(e, Some(BankKey(e, None)));
    AdoptionDecides(codec, files[target], codec.load(files[target]).value, Adoption(x, e), Aufruf(Uebernehmen, x, e), Keys(x, e));
  }

  lemma AdoptionDecides(
      codec: Codec, current: string, keyring: Keyring, arguments: seq<string>, call: Aufruf, bank: Delivered)
    requires ReadAll(arguments) == Some(call) && Whole(call) && call.modus == Uebernehmen
    requires codec.load(current) == Some(keyring)
    requires Confirms(call.x002, DigestOf(bank.x).key) && Confirms(call.e002, DigestOf(bank.e).key)
    ensures Decide(codec, true, Some(current), arguments, Some(bank)) == Store(codec.save(With(keyring, bank)))
  {
    hide ReadAll, Confirms, DigestOf, SummaryOf, HasKeys;
  }

  /** The process dies in the rename. */
  function Dying(n: nat): Fault {
    if n == 4 then Dies(false, None) else Fine
  }

  lemma DeadRunLeavesItsTwin(files: Files, target: string, content: string)
    requires target in files && !NoBackupName(files, target)
    ensures var r := Storing(files, target, content, Dying, 0);
            && r.end.Died? && Current(r.files, target) == Current(files, target)
            && Twin(r.files, target) == Some(content)
            && r.files.Keys == files.Keys + {FreeName(BackupName(target), files).value, Hidden(target)}
  {
    hide FreeName, BackupName, Hidden;
    BackupIsNew(target, files);
  }

  /** With at most one backup there is room for another. */
  lemma RoomForBackups(target: string, files: Files, taken: string)
    requires files.Keys <= {target, Hidden(target), taken}
    ensures !NoBackupName(files, target)
  {
    hide Candidate, BackupName, Hidden, FreeFrom;
    var name := BackupName(target);
    FreeFromIsFirst(name, files, 1);
    BackupApart(target, 1);
    BackupApart(target, 2);
    if Candidate(name, 1) == Candidate(name, 2) {
      CandidatesDiffer(name, 1, 2);
    }
    assert Candidate(name, 1) !in files || Candidate(name, 2) !in files;
  }

  /** The first run dies with its twin written, and its operator takes other keys in the second, which cannot remove
      that twin and whose save writes nothing: it reports success, and the keys that it has not confirmed are current. */
  ghost predicate AdoptsTheTwin(
      codec: Codec, target: string, keyring: Keyring, first: Run, second: Run, states: seq<Files>, wanted: Keyring, got: Keyring)
  {
    && History(codec, target, states, [first, second]) && states[0] == map[target := codec.save(keyring)]
    && Deciding(codec, target, states[1], second) == Store(codec.save(wanted))
    && Running(codec, target, states[1], second, 0).exit == Some(0)
    && Current(states[2], target) == Some(codec.save(got))
  }

  /** The proviso is needed, for every keyring and any two pairs of keys. */
  lemma StuckTwinIsAdopted(codec: Codec, target: string, keyring: Keyring, x: string, e: string, newX: string, newE: string)
    returns (states: seq<Files>)
    requires Lossless(codec) && Typed(x) && Typed(e) && Typed(newX) && Typed(newE)
    ensures AdoptsTheTwin(codec, target, keyring, Adopting(x, e, Dying), Adopting(newX, newE, Unlucky), states,
                          With(keyring, Keys(newX, newE)), With(keyring, Keys(x, e)))
  {
    hide Storing, Decide, NoBackupName, FreeName, Hidden, Typed, Adopting;
    var start: Files := map[target := codec.save(keyring)];
    var first, second := Adopting(x, e, Dying), Adopting(newX, newE, Unlucky);
    assert first.script == Dying && second.script == Unlucky by { Scripts(x, e, newX, newE); }
    AdoptingStores(codec, target, start, x, e, Dying);
    RoomForBackups(target, start, target);
    var content := codec.save(With(keyring, Keys(x, e)));
    DeadRunLeavesItsTwin(start, target, content);
    var left := Running(codec, target, start, first, 0).files;
    RunningStores(codec, target, start, first);
    FreeBackup(target, start);
    AdoptingStores(codec, target, left, newX, newE, Unlucky);
    RoomForBackups(target, left, FreeName(BackupName(target), start).value);
    StuckTwin(left, target, codec.save(With(keyring, Keys(newX, newE))));
    var last := Running(codec, target, left, second, 0).files;
    states := [start, left, last];
  }

  lemma Scripts(x: string, e: string, newX: string, newE: string)
    ensures Adopting(x, e, Dying).script == Dying && Adopting(newX, newE, Unlucky).script == Unlucky
  {
  }

  lemma FreeBackup(target: string, files: Files)
    requires !NoBackupName(files, target)
    ensures FreeName(BackupName(target), files).Some?
  {
  }

  /** One such history: the operator has confirmed 5C and 6D, the script says that they are stored, and 3A and 4B are. */
  lemma StuckTwinExample(codec: Codec) returns (states: seq<Files>)
    requires Lossless(codec)
    ensures var keyring := Keyring(None, None, "own");
            AdoptsTheTwin(codec, "k", keyring, Adopting("3A", "4B", Dying), Adopting("5C", "6D", Unlucky), states,
                          With(keyring, Keys("5C", "6D")), With(keyring, Keys("3A", "4B")))
  {
    hide Adopting, AdoptsTheTwin, Keys, With;
    TypedDigest("3A");
    TypedDigest("4B");
    TypedDigest("5C");
    TypedDigest("6D");
    states := StuckTwinIsAdopted(codec, "k", Keyring(None, None, "own"), "3A", "4B", "5C", "6D");
  }

  lemma TypedDigest(text: string)
    requires |text| == 2 && IsHex(text[0]) && IsHex(text[1])
    ensures Typed(text)
  {
    NibbleOfHex(text[0]);
    NibbleOfHex(text[1]);
    hide Nibble, IsHex;
    assert !IsSpace(text[0]) && !IsSpace(text[1]) by { HexIsNoSpace(text[0]); HexIsNoSpace(text[1]); }
    assert Nibbles(text) == [Nibble(text[0]).value] + Nibbles(text[1..]);
  }

  lemma HexIsNoSpace(c: char)
    ensures IsHex(c) ==> !IsSpace(c)
  {
  }
}
