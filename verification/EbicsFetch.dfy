/** The daily fetch of account statements: take the delivery apart, store every document, and only then tell
    the bank that it has arrived. */
module EbicsFetch {
  import opened Wrappers
  import opened JsonText
  import opened EbicsFiles
  import opened FileNames

  // ----- the delivery ----------------------------------------------------------------------

  /** The order data of a download and what the ZIP reader makes of it: its entries in order, an unreadable one
      absent, or an exception. */
  datatype Delivery = Delivery(data: string, entries: Option<seq<Option<string>>>)

  predicate IsZip(data: string) {
    "PK\U{03}\U{04}" <= data
  }

  predicate Readable(entry: Option<string>) {
    entry.Some? && !Blank(entry.value)
  }

  /** The documents of a delivery, in order: all readable entries that are not blank. */
  function ReadableOnes(entries: seq<Option<string>>): seq<string> {
    if entries == [] then []
    else
      var last := entries[|entries| - 1];
      ReadableOnes(entries[..|entries| - 1]) + if Readable(last) then [last.value] else []
  }

  function Documents(d: Delivery): Option<seq<string>> {
    if Blank(d.data) then Some([])
    else if !IsZip(d.data) then Some([d.data])
    else if d.entries == None then None
    else Some(ReadableOnes(d.entries.value))
  }

  /** `ebicsInhalte`. */
  method Inhalte(d: Delivery) returns (r: Option<seq<string>>)
    ensures r == Documents(d)
    ensures r.Some? ==> Contains(d, r.value)
    ensures r == None <==> !White(d.data) && "PK\U{03}\U{04}" <= d.data && d.entries == None
  {
    hide Contains, White;
    DocumentsAreContained(d);
    if Blank(d.data) {
      return Some([]);
    }
    if !IsZip(d.data) {
      return Some([d.data]);
    }
    if d.entries == None {
      return None;
    }
    var inhalte: seq<string> := [];
    for i := 0 to |d.entries.value|
      invariant inhalte == ReadableOnes(d.entries.value[..i])
    {
      var inhalt := d.entries.value[i];
      assert d.entries.value[..i + 1][..i] == d.entries.value[..i];
      if inhalt == None || Blank(inhalt.value) {
        continue;
      }
      inhalte := inhalte + [inhalt.value];
    }
    assert d.entries.value[..|d.entries.value|] == d.entries.value;
    return Some(inhalte);
  }

  /** Every readable entry that is not blank is a document, and nothing else is. */
  lemma {:induction false} DocumentsAreTheReadable(entries: seq<Option<string>>, text: string)
    ensures text in ReadableOnes(entries) <==> !Blank(text) && Some(text) in entries
    decreases |entries|
  {
    if entries != [] {
      DocumentsAreTheReadable(entries[..|entries| - 1], text);
      assert entries == entries[..|entries| - 1] + [entries[|entries| - 1]];
    }
  }

  /** These are the texts at these places: every readable entry that is not white, in order, as often as it occurs. */
  predicate InOrder(entries: seq<Option<string>>, docs: seq<string>, at: seq<nat>) {
    && |at| == |docs|
    && (forall k | 0 <= k < |at| :: at[k] < |entries| && entries[at[k]] == Some(docs[k]) && !White(docs[k]))
    && (forall k, l | 0 <= k < l < |at| :: at[k] < at[l])
    && (forall i | 0 <= i < |entries| && entries[i].Some? && !White(entries[i].value) :: i in at)
  }

  /** What a delivery contains, said of the delivery itself: nothing, one plain document, or the documents of an
      archive that could be opened. */
  ghost predicate Contains(d: Delivery, docs: seq<string>) {
    if White(d.data) then docs == []
    else if !("PK\U{03}\U{04}" <= d.data) then docs == [d.data]
    else d.entries.Some? && exists at :: InOrder(d.entries.value, docs, at)
  }

  lemma {:induction false} ReadableInOrder(entries: seq<Option<string>>) returns (at: seq<nat>)
    ensures InOrder(entries, ReadableOnes(entries), at)
    decreases |entries|
  {
    hide Blank, White, InOrder;
    at := [];
    if entries == [] {
      NothingInOrder();
    } else {
      var n := |entries| - 1;
      var last, front := entries[n], entries[..n];
      var before := ReadableInOrder(front);
      at := if Readable(last) then before + [n] else before;
      if last.Some? {
        BlankIsWhite(last.value);
      }
      OneMoreEntry(front, last, ReadableOnes(front), before);
      assert front + [last] == entries;
      assert ReadableOnes(entries) == ReadableOnes(front) + if Readable(last) then [last.value] else [];
      assert ReadableOnes(front) + [] == ReadableOnes(front);
    }
  }

  lemma NothingInOrder()
    ensures InOrder([], [], [])
  {
  }

  lemma OneMoreEntry(front: seq<Option<string>>, last: Option<string>, docs: seq<string>, at: seq<nat>)
    requires InOrder(front, docs, at)
    ensures last.Some? && !White(last.value) ==> InOrder(front + [last], docs + [last.value], at + [|front|])
    ensures last == None || White(last.value) ==> InOrder(front + [last], docs, at)
  {
    hide White;
    var all, n := front + [last], |front|;
    var more := if last.Some? && !White(last.value) then at + [n] else at;
    forall i | 0 <= i < |all| && all[i].Some? && !White(all[i].value) ensures i in more {
      if i < n {
        assert front[i] == all[i] && i in at;
      } else {
        assert more[|at|] == n;
      }
    }
  }

  /** The documents are what the delivery contains, and only an archive that could not be opened yields none at all. */
  lemma DocumentsAreContained(d: Delivery)
    ensures Documents(d).Some? ==> Contains(d, Documents(d).value)
    ensures Documents(d) == None <==> !White(d.data) && "PK\U{03}\U{04}" <= d.data && d.entries == None
  {
    BlankIsWhite(d.data);
    hide Blank, White, InOrder;
    if d.entries.Some? {
      var at := ReadableInOrder(d.entries.value);
    }
  }

  // ----- storing ---------------------------------------------------------------------------

  function TwoDigits(n: nat): string {
    if n < 10 then "0" + Digits(n) else Digits(n)
  }

  /** The number as it is, with two digits at least. */
  lemma TwoDigitsAtLeast(n: nat)
    ensures |TwoDigits(n)| >= 2 && (forall c | c in TwoDigits(n) :: IsDigit(c)) && Value(TwoDigits(n)) == n
    ensures n >= 10 ==> TwoDigits(n)[0] != '0'
  {
    ValueOfDigits(n);
    FirstDigit(n);
    if n < 10 {
      assert TwoDigits(n)[..1] == "0" && "0"[..0] == "";
      assert Value("0") == 0;
    }
  }

  lemma {:induction false} FirstDigit(n: nat)
    ensures n > 0 ==> Digits(n)[0] != '0'
    ensures n >= 10 ==> |Digits(n)| >= 2
    ensures n < 10 ==> |Digits(n)| == 1
  {
    if n >= 10 {
      FirstDigit(n / 10);
    }
  }

  /** `ebicsDateiname`: formed here, never taken from the bank. */
  function Dateiname(datum: string, number: nat): string {
    "camt053-" + datum + "-" + TwoDigits(number) + ".xml"
  }

  lemma DateinameVisible(datum: string, number: nat)
    ensures Visible(Dateiname(datum, number)) && LastDot(Dateiname(datum, number)) != 0
  {
    var name := Dateiname(datum, number);
    assert name[|name| - 4] == '.' && name[0] == 'c';
    DotAfter(name, |name| - 4);
  }

  /** Each document has a visible file of its own with its whole content. */
  predicate Holds(files: Files, names: seq<string>, docs: seq<string>) {
    && |names| == |docs|
    && (forall i, j | 0 <= i < j < |names| :: names[i] != names[j])
    && (forall i | 0 <= i < |names| :: Visible(names[i]) && names[i] in files && files[names[i]] == docs[i])
  }

  /** These visible files and no others are new. */
  predicate Grown(before: Files, after: Files, names: seq<string>) {
    && Kept(before, after)
    && (forall i | 0 <= i < |names| :: names[i] !in before)
    && (forall name | name in after && Visible(name) :: name in before || name in names)
  }

  /** What readers see of the other files is the same. */
  ghost predicate SameBut(before: Files, after: Files, name: string) {
    forall other | Visible(other) && other != name ::
      (other in before <==> other in after) && (other in before ==> after[other] == before[other])
  }

  /** The file has come under its name, whole. */
  ghost predicate Came(before: Files, after: Files, name: string, content: string) {
    SameBut(before, after, name) && name in after && after[name] == content
  }

  ghost predicate Unseen(before: Files, after: Files) {
    SameBut(before, after, "")
  }

  /** One document: hidden first, then renamed.  The directory, how it ended, and the number of the last operation. */
  function PlacedOne(files: Files, name: string, content: string, script: nat -> Fault, k: nat): (Files, Op, nat) {
    var (written, w) := Written(files, Hidden(name), content, script(k + 1));
    if !w.Done? then (written, w, k + 1)
    else
      var (renamed, r) := Renamed(written, Hidden(name), name, script(k + 2));
      if !r.Failed? then (renamed, r, k + 2)
      else
        var (removed, u) := Unlinked(renamed, Hidden(name), script(k + 3));
        (removed, if u.Dead? then Dead else Failed, k + 3)
  }

  method PlaceOne(disk: Disk, name: string, content: string) returns (op: Op)
    modifies disk
    ensures (disk.files, op, disk.ops) == PlacedOne(old(disk.files), name, content, disk.script, old(disk.ops))
  {
    op := disk.Write(Hidden(name), content);
    if !op.Done? {
      return;
    }
    op := disk.Rename(Hidden(name), name);
    if op.Failed? {
      var removed := disk.Unlink(Hidden(name));
      op := if removed.Dead? then Dead else Failed;
    }
  }

  /** A document comes under its name whole or not at all. */
  lemma PlacedWhole(files: Files, name: string, content: string, script: nat -> Fault, k: nat)
    requires Visible(name) && name !in files
    ensures var (after, op, n) := PlacedOne(files, name, content, script, k);
            && k < n
            && (op.Done? ==> Came(files, after, name, content))
            && (op.Failed? ==> Unseen(files, after))
            && (Unseen(files, after) || Came(files, after, name, content))
            && (!op.Done? ==> Faulty(script, k, n)) && (op.Dead? <==> Deadly(script, k, n))
  {
    DeadlyOn(script, k, k);
    DeadlyOn(script, k, k + 1);
    DeadlyOn(script, k, k + 2);
    hide Deadly;
    var (written, w) := Written(files, Hidden(name), content, script(k + 1));
    WrittenThere(files, Hidden(name), content, script(k + 1));
    Elsewhere(files, written, Hidden(name));
    if !w.Done? {
      assert !script(k + 1).Fine?;
    } else {
      var (renamed, r) := Renamed(written, Hidden(name), name, script(k + 2));
      assert !r.Done? ==> !script(k + 2).Fine?;
      if r.Failed? {
        var (removed, u) := Unlinked(renamed, Hidden(name), script(k + 3));
        assert removed - {Hidden(name)} == renamed - {Hidden(name)};
        Elsewhere(renamed, removed, Hidden(name));
      }
    }
  }

  /** A change at a hidden name is not seen. */
  lemma Elsewhere(before: Files, after: Files, hidden: string)
    requires !Visible(hidden) && after - {hidden} == before - {hidden}
    ensures Unseen(before, after)
  {
    forall other | Visible(other)
      ensures (other in before <==> other in after) && (other in before ==> after[other] == before[other])
    {
      assert other in before <==> other in before - {hidden};
      assert other in after <==> other in after - {hidden};
    }
  }

  lemma CameGrows(
      before: Files, middle: Files, after: Files, names: seq<string>, docs: seq<string>, name: string, content: string)
    requires Holds(middle, names, docs) && Grown(before, middle, names)
    requires Visible(name) && name !in middle && Came(middle, after, name, content)
    ensures Holds(after, names + [name], docs + [content]) && Grown(before, after, names + [name])
  {
    var all := names + [name];
    assert name !in before;
    assert all[|names|] == name;
    forall other | other in after && Visible(other) ensures other in before || other in all {
      if other != name {
        assert other in middle;
        if other in names {
          var i :| 0 <= i < |names| && names[i] == other;
          assert all[i] == other;
        }
      }
    }
  }

  lemma UnseenKeeps(before: Files, middle: Files, after: Files, names: seq<string>, docs: seq<string>)
    requires Holds(middle, names, docs) && Grown(before, middle, names) && Unseen(middle, after)
    ensures Holds(after, names, docs) && Grown(before, after, names)
  {
  }

  lemma GrownContents(before: Files, after: Files, names: seq<string>, docs: seq<string>, all: seq<string>)
    requires Holds(after, names, docs) && Grown(before, after, names) && forall doc | doc in docs :: doc in all
    ensures Kept(before, after) && OnlyOf(before, after, all)
  {
  }

  /** The name is formed here, from the date alone, whatever the bank has delivered. */
  predicate Formed(datum: string, name: string) {
    "camt053-" + datum + "-" <= name && |name| >= 4 && name[|name| - 4..] == ".xml"
  }

  predicate NewOnesFormed(before: Files, after: Files, datum: string) {
    forall name | name in after && Visible(name) && name !in before :: Formed(datum, name)
  }

  lemma CandidateFormed(datum: string, n: nat, number: nat)
    ensures Formed(datum, Candidate(Dateiname(datum, n), number))
  {
    var name := Dateiname(datum, n);
    var dot := |name| - 4;
    DotAfter(name, dot);
    LastDotIsLast(name, dot);
    assert name[..dot] == "camt053-" + datum + "-" + TwoDigits(n);
    var c := Candidate(name, number);
    assert c == name[..dot] + (if number == 1 then "" else "-" + Digits(number)) + ".xml";
  }

  lemma LastDotIsLast(name: string, dot: nat)
    requires dot == |name| - 4 && name[dot..] == ".xml"
    ensures LastDot(name) == dot && Extension(name) == "xml" && Stem(name) == name[..dot]
  {
    assert name[dot] == '.' && name[dot + 1] == 'x' && name[dot + 2] == 'm' && name[dot + 3] == 'l';
    DotAfter(name, dot);
    assert name[dot + 1..] == "xml";
    assert forall i | dot < i < |name| :: name[i] != '.';
  }

  lemma FreeNameFormed(datum: string, n: nat, files: Files)
    ensures var r := FreeName(Dateiname(datum, n), files); r.Some? ==> Formed(datum, r.value)
  {
    hide Candidate, Dateiname, FreeFrom, Formed;
    var name := Dateiname(datum, n);
    FreeFromIsFirst(name, files, 1);
    var r := FreeName(name, files);
    if r.Some? {
      var number :| 1 <= number <= LAST_NUMBER && r.value == Candidate(name, number);
      CandidateFormed(datum, n, number);
    }
  }

  lemma {:induction false} StoredFirstForms(before: Files, docs: seq<string>, datum: string, script: nat -> Fault, k: nat)
    ensures NewOnesFormed(before, StoredFirst(before, docs, datum, script, k).files, datum)
    decreases |docs|
  {
    hide PlacedOne, FreeName, Dateiname, Formed;
    if docs != [] {
      var n := |docs| - 1;
      var p := StoredFirst(before, docs[..n], datum, script, k);
      StoredFirstForms(before, docs[..n], datum, script, k);
      var free := FreeName(Dateiname(datum, n + 1), p.files);
      if p.stop.Done? && free.Some? {
        FreeIsVisible(datum, n + 1, p.files);
        FreeNameFormed(datum, n + 1, p.files);
        PlacedWhole(p.files, free.value, docs[n], script, p.ops);
      }
    }
  }

  lemma {:induction false} RemovedForms(before: Files, files: Files, names: seq<string>, datum: string, script: nat -> Fault, k: nat)
    requires NewOnesFormed(before, files, datum)
    ensures NewOnesFormed(before, Removed(files, names, script, k).files, datum)
    decreases |names|
  {
    hide Formed;
    if names != [] {
      RemovedForms(before, files, names[..|names| - 1], datum, script, k);
    }
  }

  /** Every new visible file has a name formed from the date of the run. */
  lemma NamesAreFormedHere(before: Files, run: Run, k: nat)
    ensures NewOnesFormed(before, Fetching(before, run, k).files, run.datum)
  {
    hide StoredFirst, Removed, Documents, Formed;
    if run.ready && run.bank.Delivers? && Documents(run.bank.delivery).Some? {
      var docs := Documents(run.bank.delivery).value;
      StoredFirstForms(before, docs, run.datum, run.script, k);
      var p := StoredFirst(before, docs, run.datum, run.script, k);
      RemovedForms(before, p.files, p.names, run.datum, run.script, p.ops);
    }
  }

  /** What has become visible is one of the documents, whole. */
  predicate OnlyOf(before: Files, after: Files, docs: seq<string>) {
    forall name | name in after && Visible(name) && name !in before :: after[name] in docs
  }

  /** How far the documents have come: the directory, the number of the last operation, the names so far, and whether
      it goes on. */
  datatype Progress = Progress(files: Files, ops: nat, names: seq<string>, stop: Op)

  function StoredFirst(files: Files, docs: seq<string>, datum: string, script: nat -> Fault, k: nat): Progress {
    if docs == [] then Progress(files, k, [], Done)
    else
      var n := |docs| - 1;
      var p := StoredFirst(files, docs[..n], datum, script, k);
      if !p.stop.Done? then p
      else
        match FreeName(Dateiname(datum, n + 1), p.files)
        case None => p.(stop := Failed)
        case Some(name) =>
          var (after, op, ops) := PlacedOne(p.files, name, docs[n], script, p.ops);
          Progress(after, ops, if op.Done? then p.names + [name] else p.names, op)
  }

  /** The first stop is the end. */
  lemma {:induction false} StopStays(files: Files, docs: seq<string>, datum: string, script: nat -> Fault, k: nat, n: nat)
    requires n <= |docs| && !StoredFirst(files, docs[..n], datum, script, k).stop.Done?
    ensures StoredFirst(files, docs, datum, script, k) == StoredFirst(files, docs[..n], datum, script, k)
    decreases |docs|
  {
    hide FreeName, PlacedOne, Dateiname;
    if n < |docs| {
      assert docs[..|docs| - 1][..n] == docs[..n];
      StopStays(files, docs[..|docs| - 1], datum, script, k, n);
    } else {
      assert docs[..n] == docs;
    }
  }

  /** The clean-up: every name in order, and those that could not be removed. */
  datatype Removal = Removal(files: Files, ops: nat, stuck: seq<string>, died: bool)

  function Removed(files: Files, names: seq<string>, script: nat -> Fault, k: nat): Removal {
    if names == [] then Removal(files, k, [], false)
    else
      var n := |names| - 1;
      var r := Removed(files, names[..n], script, k);
      if r.died then r
      else
        var (after, op) := Unlinked(r.files, names[n], script(r.ops + 1));
        Removal(after, r.ops + 1, if op.Failed? then r.stuck + [names[n]] else r.stuck, op.Dead?)
  }

  lemma {:induction false} DeathStays(files: Files, names: seq<string>, script: nat -> Fault, k: nat, n: nat)
    requires n <= |names| && Removed(files, names[..n], script, k).died
    ensures Removed(files, names, script, k) == Removed(files, names[..n], script, k)
    decreases |names|
  {
    if n < |names| {
      assert names[..|names| - 1][..n] == names[..n];
      DeathStays(files, names[..|names| - 1], script, k, n);
    } else {
      assert names[..n] == names;
    }
  }

  datatype Outcome = Placed(names: seq<string>) | Threw(stuck: seq<string>) | Died

  datatype Stored = Stored(files: Files, ops: nat, outcome: Outcome)

  /** `ebicsAblegen` as a function of the directory and of what happens at every operation. */
  function Storing(files: Files, docs: seq<string>, datum: string, script: nat -> Fault, k: nat): Stored {
    var p := StoredFirst(files, docs, datum, script, k);
    match p.stop
    case Done => Stored(p.files, p.ops, Placed(p.names))
    case Dead => Stored(p.files, p.ops, Died)
    case Failed =>
      var r := Removed(p.files, p.names, script, p.ops);
      Stored(r.files, r.ops, if r.died then Died else Threw(r.stuck))
  }

  /** `ebicsAblegen`, with the loop and the clean-up of the source. */
  method Ablegen(disk: Disk, docs: seq<string>, datum: string) returns (r: Outcome)
    modifies disk
    ensures Stored(disk.files, disk.ops, r) == Storing(old(disk.files), docs, datum, disk.script, old(disk.ops))
    ensures StoresRight(old(disk.files), docs, datum, disk.script, old(disk.ops), Stored(disk.files, disk.ops, r))
  {
    hide Dateiname, FreeName, PlacedOne, Removed, StoresRight;
    StoringIsRight(disk.files, docs, datum, disk.script, disk.ops);
    ghost var before, k := disk.files, disk.ops;
    var geschrieben: seq<string> := [];
    var failed := false;
    for i := 0 to |docs|
      invariant !failed
      invariant StoredFirst(before, docs[..i], datum, disk.script, k) == Progress(disk.files, disk.ops, geschrieben, Done)
    {
      assert docs[..i + 1][..i] == docs[..i];
      if !StoredFirst(before, docs[..i + 1], datum, disk.script, k).stop.Done? {
        StopStays(before, docs, datum, disk.script, k, i + 1);
      }
      var pfad := FreierPfad(Dateiname(datum, i + 1), disk.files);
      if pfad == None {
        failed := true;
        break;
      }
      var placed := PlaceOne(disk, pfad.value, docs[i]);
      if placed.Dead? {
        return Died;
      }
      if placed.Failed? {
        failed := true;
        break;
      }
      geschrieben := geschrieben + [pfad.value];
    }
    assert docs[..|docs|] == docs;
    if !failed {
      return Placed(geschrieben);
    }
    r := RollBack(disk, geschrieben);
  }

  method RollBack(disk: Disk, names: seq<string>) returns (r: Outcome)
    modifies disk
    ensures var end := Removed(old(disk.files), names, disk.script, old(disk.ops));
            && disk.files == end.files && disk.ops == end.ops
            && r == if end.died then Died else Threw(end.stuck)
  {
    ghost var before, k := disk.files, disk.ops;
    var stuck: seq<string> := [];
    for i := 0 to |names|
      invariant Removed(before, names[..i], disk.script, k) == Removal(disk.files, disk.ops, stuck, false)
    {
      assert names[..i + 1][..i] == names[..i];
      if Removed(before, names[..i + 1], disk.script, k).died {
        DeathStays(before, names, disk.script, k, i + 1);
      }
      var op := disk.Unlink(names[i]);
      if op.Dead? {
        return Died;
      }
      if op.Failed? {
        stuck := stuck + [names[i]];
      }
    }
    assert names[..|names|] == names;
    r := Threw(stuck);
  }

  // ----- what storing does -----------------------------------------------------------------

  /** Some document of the delivery finds all its 999 names taken, by files of before or of this run. */
  ghost predicate NoNameLeft(before: Files, datum: string, count: nat) {
    exists names: seq<string> | |names| < count :: AllTaken(before, names, datum)
  }

  /** The next document after these files. */
  predicate AllTaken(before: Files, names: seq<string>, datum: string) {
    var name := Dateiname(datum, |names| + 1);
    forall number | 1 <= number <= LAST_NUMBER :: Candidate(name, number) in before || Candidate(name, number) in names
  }

  lemma TakenByNow(before: Files, after: Files, names: seq<string>, datum: string, name: string)
    requires Grown(before, after, names) && name == Dateiname(datum, |names| + 1)
    requires forall number | 1 <= number <= LAST_NUMBER :: Candidate(name, number) in after
    ensures AllTaken(before, names, datum)
  {
    DateinameVisible(datum, |names| + 1);
    hide Dateiname, Candidate;
    forall number | 1 <= number <= LAST_NUMBER ensures Candidate(name, number) in before || Candidate(name, number) in names {
      CandidateVisible(name, number);
    }
  }

  /** A free name is new and visible. */
  lemma FreeIsVisible(datum: string, n: nat, files: Files)
    ensures var r := FreeName(Dateiname(datum, n), files);
            && (r.Some? ==> Visible(r.value) && r.value !in files)
            && (r.None? ==> forall number | 1 <= number <= LAST_NUMBER :: Candidate(Dateiname(datum, n), number) in files)
  {
    var name := Dateiname(datum, n);
    DateinameVisible(datum, n);
    hide Dateiname, Candidate;
    FreeFromIsFirst(name, files, 1);
    var r := FreeName(name, files);
    if r.Some? {
      var number :| 1 <= number <= LAST_NUMBER && r.value == Candidate(name, number);
      CandidateVisible(name, number);
    }
  }

  /** What a run has stored so far. */
  ghost predicate Stands(before: Files, docs: seq<string>, p: Progress) {
    && Kept(before, p.files) && OnlyOf(before, p.files, docs)
    && (!p.stop.Dead? ==>
          && |p.names| <= |docs|
          && Holds(p.files, p.names, docs[..|p.names|]) && Grown(before, p.files, p.names))
    && (p.stop.Done? ==> |p.names| == |docs|)
  }

  /** It stops only for a fault or for want of a name. */
  ghost predicate HasReason(before: Files, datum: string, count: nat, script: nat -> Fault, k: nat, p: Progress) {
    && k <= p.ops
    && (p.stop.Dead? ==> Faulty(script, k, p.ops))
    && (p.stop.Failed? ==> Faulty(script, k, p.ops) || NoNameLeft(before, datum, count))
    && (p.stop.Dead? <==> Deadly(script, k, p.ops))
  }

  lemma StandsOn(before: Files, docs: seq<string>, p: Progress, name: string, script: nat -> Fault)
    requires docs != [] && p.stop.Done? && Stands(before, docs[..|docs| - 1], p)
    requires Visible(name) && name !in p.files
    ensures var doc := docs[|docs| - 1];
            var (after, op, ops) := PlacedOne(p.files, name, doc, script, p.ops);
            Stands(before, docs, Progress(after, ops, if op.Done? then p.names + [name] else p.names, op))
  {
    var n := |docs| - 1;
    var (after, op, ops) := PlacedOne(p.files, name, docs[n], script, p.ops);
    PlacedWhole(p.files, name, docs[n], script, p.ops);
    assert docs[..n][..n] == docs[..n] && docs[..n] + [docs[n]] == docs && docs[..|docs|] == docs;
    hide PlacedOne, Holds, Grown, Kept, OnlyOf, Came, Unseen;
    if Came(p.files, after, name, docs[n]) {
      CameGrows(before, p.files, after, p.names, docs[..n], name, docs[n]);
      GrownContents(before, after, p.names + [name], docs, docs);
    }
    if Unseen(p.files, after) {
      UnseenKeeps(before, p.files, after, p.names, docs[..n]);
      GrownContents(before, after, p.names, docs[..n], docs);
    }
  }

  lemma StandsStill(before: Files, docs: seq<string>, p: Progress, stop: Op)
    requires docs != [] && Stands(before, docs[..|docs| - 1], p) && (p.stop == stop || stop.Failed?) && !stop.Done?
    requires p.stop.Dead? ==> stop.Dead?
    ensures Stands(before, docs, p.(stop := stop))
  {
    hide Holds, Grown, Kept;
    if |p.names| < |docs| {
      assert docs[..|docs| - 1][..|p.names|] == docs[..|p.names|];
    }
  }

  lemma StartsStanding(before: Files, k: nat)
    ensures Stands(before, [], Progress(before, k, [], Done))
  {
  }

  lemma {:induction false} StoredFirstStands(before: Files, docs: seq<string>, datum: string, script: nat -> Fault, k: nat)
    ensures var p := StoredFirst(before, docs, datum, script, k);
            Stands(before, docs, p) && HasReason(before, datum, |docs|, script, k, p)
    decreases |docs|
  {
    hide Stands, PlacedOne, FreeName, Dateiname, NoNameLeft, Holds, Grown, Kept, OnlyOf, AllTaken, Deadly;
    DeadlyOn(script, k, k);
    if docs == [] {
      StartsStanding(before, k);
    } else {
      var n := |docs| - 1;
      var p := StoredFirst(before, docs[..n], datum, script, k);
      StoredFirstStands(before, docs[..n], datum, script, k);
      NamesLeftGrow(before, datum, n, |docs|);
      if !p.stop.Done? {
        StandsStill(before, docs, p, p.stop);
      } else {
        FreeIsVisible(datum, n + 1, p.files);
        var free := FreeName(Dateiname(datum, n + 1), p.files);
        if free == None {
          StandsStill(before, docs, p, Failed);
          NoFreeName(before, docs[..n], datum, p, |docs|);
        } else {
          StandsOn(before, docs, p, free.value, script);
          PlacedWhole(p.files, free.value, docs[n], script, p.ops);
          LaterFault(script, k, p.ops, PlacedOne(p.files, free.value, docs[n], script, p.ops).2);
          DeadlyParts(script, k, p.ops, PlacedOne(p.files, free.value, docs[n], script, p.ops).2);
        }
      }
    }
  }

  lemma LaterFault(script: nat -> Fault, k: nat, n: nat, end: nat)
    requires k <= n <= end
    ensures Faulty(script, n, end) ==> Faulty(script, k, end)
  {
  }

  lemma NamesLeftGrow(before: Files, datum: string, n: nat, more: nat)
    requires n <= more
    ensures NoNameLeft(before, datum, n) ==> NoNameLeft(before, datum, more)
  {
  }

  lemma NoFreeName(before: Files, docs: seq<string>, datum: string, p: Progress, count: nat)
    requires Stands(before, docs, p) && p.stop.Done? && count == |docs| + 1
    requires FreeName(Dateiname(datum, count), p.files) == None
    ensures NoNameLeft(before, datum, count)
  {
    FreeIsVisible(datum, count, p.files);
    hide Dateiname, Candidate, FreeName;
    TakenByNow(before, p.files, p.names, datum, Dateiname(datum, count));
  }

  /** The clean-up after `n` names: of the new files there are only those still to come and those whose removal has
      failed, and these are all still there. */
  ghost predicate ClearedUpTo(
      before: Files, docs: seq<string>, names: seq<string>, n: nat, script: nat -> Fault, k: nat, r: Removal)
    requires n <= |names|
  {
    && Kept(before, r.files) && OnlyOf(before, r.files, docs)
    && (!r.died ==>
          && r.ops == k + n
          && (forall name | name in r.files && Visible(name) :: name in before || name in r.stuck || name in names[n..])
          && (forall name | name in r.stuck :: name in r.files && name in names[..n])
          && (forall i | n <= i < |names| :: names[i] in r.files)
          && (forall i | 0 <= i < n :: names[i] in r.stuck <==> script(k + i + 1).Fails?))
  }

  lemma ClearedOne(
      before: Files, docs: seq<string>, names: seq<string>, n: nat, script: nat -> Fault, k: nat, r: Removal)
    requires n < |names| && ClearedUpTo(before, docs, names, n, script, k, r) && !r.died
    requires names[n] !in before && forall i, j | 0 <= i < j < |names| :: names[i] != names[j]
    ensures var (after, op) := Unlinked(r.files, names[n], script(r.ops + 1));
            ClearedUpTo(before, docs, names, n + 1, script, k,
                        Removal(after, r.ops + 1, if op.Failed? then r.stuck + [names[n]] else r.stuck, op.Dead?))
  {
    var (after, op) := Unlinked(r.files, names[n], script(r.ops + 1));
    var stuck := if op.Failed? then r.stuck + [names[n]] else r.stuck;
    assert names[n..] == [names[n]] + names[n + 1..] && names[..n + 1] == names[..n] + [names[n]];
    assert names[n] !in r.stuck by {
      assert forall i | 0 <= i < n :: names[..n][i] != names[n];
    }
    forall i | 0 <= i < n + 1 ensures !op.Dead? ==> (names[i] in stuck <==> script(k + i + 1).Fails?) {
      assert i < n ==> names[i] != names[n];
    }
  }

  lemma ClearingStarts(before: Files, files: Files, docs: seq<string>, names: seq<string>, script: nat -> Fault, k: nat)
    requires Holds(files, names, docs) && Grown(before, files, names)
    ensures ClearedUpTo(before, docs, names, 0, script, k, Removal(files, k, [], false))
  {
    assert names[0..] == names;
    GrownContents(before, files, names, docs, docs);
  }

  lemma {:induction false} RemovedClears(
      before: Files, files: Files, docs: seq<string>, names: seq<string>, n: nat, script: nat -> Fault, k: nat)
    requires Holds(files, names, docs) && Grown(before, files, names) && n <= |names|
    ensures ClearedUpTo(before, docs, names, n, script, k, Removed(files, names[..n], script, k))
    ensures k <= Removed(files, names[..n], script, k).ops
    ensures Removed(files, names[..n], script, k).died ==> Faulty(script, k, Removed(files, names[..n], script, k).ops)
    ensures Removed(files, names[..n], script, k).died <==> Deadly(script, k, Removed(files, names[..n], script, k).ops)
    decreases n
  {
    hide Kept, OnlyOf, Holds, Grown, ClearedUpTo, Unlinked, Deadly;
    DeadlyOn(script, k, k);
    if n == 0 {
      ClearingStarts(before, files, docs, names, script, k);
    } else {
      RemovedClears(before, files, docs, names, n - 1, script, k);
      assert names[..n][..n - 1] == names[..n - 1] && names[..n][n - 1] == names[n - 1];
      var r := Removed(files, names[..n - 1], script, k);
      if r.died {
        ClearedDead(before, docs, names, n - 1, script, k, r);
      } else {
        NewNames(before, files, docs, names);
        ClearedOne(before, docs, names, n - 1, script, k, r);
        DeadlyOn(script, k, r.ops);
        DeadRemoval(r.files, names[n - 1], script(r.ops + 1));
        if Unlinked(r.files, names[n - 1], script(r.ops + 1)).1.Dead? {
          RemovalFault(r.files, names[n - 1], script, k, r.ops);
        }
      }
    }
  }

  lemma ClearedDead(before: Files, docs: seq<string>, names: seq<string>, n: nat, script: nat -> Fault, k: nat, r: Removal)
    requires n < |names| && r.died && ClearedUpTo(before, docs, names, n, script, k, r)
    ensures ClearedUpTo(before, docs, names, n + 1, script, k, r)
  {
  }

  lemma NewNames(before: Files, files: Files, docs: seq<string>, names: seq<string>)
    requires Holds(files, names, docs) && Grown(before, files, names)
    ensures forall i | 0 <= i < |names| :: names[i] !in before
    ensures forall i, j | 0 <= i < j < |names| :: names[i] != names[j]
  {
  }

  lemma DeadRemoval(files: Files, name: string, fault: Fault)
    ensures Unlinked(files, name, fault).1.Dead? <==> fault.Dies?
  {
  }

  lemma RemovalFault(files: Files, name: string, script: nat -> Fault, k: nat, n: nat)
    requires k <= n && Unlinked(files, name, script(n + 1)).1.Dead?
    ensures Faulty(script, k, n + 1)
  {
    assert !script(n + 1).Fine?;
  }

  /** The number of the last operation before the clean-up; the operations after it are the removals. */
  function CleanUpStart(before: Files, docs: seq<string>, datum: string, script: nat -> Fault, k: nat): nat {
    StoredFirst(before, docs, datum, script, k).ops
  }

  /** The files that the clean-up has to remove, in order. */
  function ToRemove(before: Files, docs: seq<string>, datum: string, script: nat -> Fault, k: nat): seq<string> {
    StoredFirst(before, docs, datum, script, k).names
  }

  /** Exactly the names whose removal failed are stuck; the removal of name `i` is operation `from + i + 1`. */
  ghost predicate StuckAre(names: seq<string>, stuck: seq<string>, script: nat -> Fault, from: nat, end: nat) {
    && end == from + |names| && (forall name | name in stuck :: name in names)
    && (forall i | 0 <= i < |names| :: names[i] in stuck <==> script(from + i + 1).Fails?)
  }

  /** What the operations of one delivery come to, whatever happens at each of them. */
  ghost predicate StoresRight(before: Files, docs: seq<string>, datum: string, script: nat -> Fault, k: nat, s: Stored) {
    && Kept(before, s.files) && OnlyOf(before, s.files, docs) && k <= s.ops
    && (s.outcome.Died? <==> Deadly(script, k, s.ops))
    && match s.outcome
       case Placed(names) => Holds(s.files, names, docs) && Grown(before, s.files, names)
       case Died => Faulty(script, k, s.ops)
       case Threw(stuck) =>
         && (forall name | Visible(name) :: name in s.files <==> name in before || name in stuck)
         && StuckAre(ToRemove(before, docs, datum, script, k), stuck, script, CleanUpStart(before, docs, datum, script, k), s.ops)
         && (Faulty(script, k, s.ops) || NoNameLeft(before, datum, |docs|))
  }

  lemma StoringIsRight(before: Files, docs: seq<string>, datum: string, script: nat -> Fault, k: nat)
    ensures StoresRight(before, docs, datum, script, k, Storing(before, docs, datum, script, k))
  {
    var p := StoredFirst(before, docs, datum, script, k);
    StoredFirstStands(before, docs, datum, script, k);
    hide StoredFirst, NoNameLeft, Deadly;
    if p.stop.Done? {
      assert docs[..|p.names|] == docs;
    } else if p.stop.Failed? {
      RollsBackRight(before, docs, datum, script, k, p);
    }
  }

  lemma RollsBackRight(before: Files, docs: seq<string>, datum: string, script: nat -> Fault, k: nat, p: Progress)
    requires Stands(before, docs, p) && p.stop.Failed? && HasReason(before, datum, |docs|, script, k, p)
    requires p.ops == CleanUpStart(before, docs, datum, script, k) && p.names == ToRemove(before, docs, datum, script, k)
    ensures var r := Removed(p.files, p.names, script, p.ops);
            StoresRight(before, docs, datum, script, k, Stored(r.files, r.ops, if r.died then Died else Threw(r.stuck)))
  {
    hide Removed, Holds, Grown, NoNameLeft, ClearedUpTo, OnlyOf, Kept, Faulty, Deadly, CleanUpStart, ToRemove, StuckAre;
    var names, n := p.names, |p.names|;
    RemovedClears(before, p.files, docs[..n], names, n, script, p.ops);
    assert names[..n] == names;
    var r := Removed(p.files, names, script, p.ops);
    LaterFault(script, k, p.ops, r.ops);
    EarlierFault(script, k, p.ops, r.ops);
    DeadlyParts(script, k, p.ops, r.ops);
    ClearedWhole(before, docs, n, names, script, p.ops, r);
  }

  lemma ClearedWhole(
      before: Files, docs: seq<string>, n: nat, names: seq<string>, script: nat -> Fault, from: nat, r: Removal)
    requires n == |names| <= |docs| && ClearedUpTo(before, docs[..n], names, n, script, from, r)
    ensures Kept(before, r.files) && OnlyOf(before, r.files, docs)
    ensures !r.died ==> forall name | Visible(name) :: name in r.files <==> name in before || name in r.stuck
    ensures !r.died ==> StuckAre(names, r.stuck, script, from, r.ops)
  {
    assert names[..n] == names && names[n..] == [];
    assert forall doc | doc in docs[..n] :: doc in docs;
  }

  lemma EarlierFault(script: nat -> Fault, k: nat, n: nat, end: nat)
    requires k <= n <= end
    ensures Faulty(script, k, n) ==> Faulty(script, k, end)
  {
  }

  // ----- one run ---------------------------------------------------------------------------

  /** What can end a run with an exception, as far as the exit code tells them apart. */
  datatype Trouble = NothingNew | KeysChanged | Configuration | Storage | Protocol

  function ExitCode(t: Trouble): nat {
    match t
    case NothingNew => 0
    case KeysChanged => 4
    case Configuration => 1
    case Storage => 3
    case Protocol => 2
  }

  /** The bank's side of a run: no delivery, or a delivery and what happens when the receipt is sent. */
  datatype Bank = Throws(trouble: Trouble) | Delivers(delivery: Delivery, receipt: Option<Trouble>)

  /** The receipt that the run decides on; a run that dies before decides on none. */
  datatype Ack = NoAck | Positive | Negative

  function AckOf(outcome: Outcome): Ack {
    match outcome
    case Placed(_) => Positive
    case Threw(_) => Negative
    case Died => NoAck
  }

  datatype Closed = Closed(files: Files, ops: nat, ack: Ack)

  /** What the closure does before the receipt is sent. */
  function Closing(files: Files, datum: string, delivery: Delivery, script: nat -> Fault, k: nat): Closed {
    match Documents(delivery)
    case None => Closed(files, k, Negative)
    case Some(docs) =>
      var s := Storing(files, docs, datum, script, k);
      Closed(s.files, s.ops, AckOf(s.outcome))
  }

  /** The closure that the library calls before it sends the receipt. */
  method AckClosure(disk: Disk, datum: string, delivery: Delivery) returns (ack: Ack)
    modifies disk
    ensures Closed(disk.files, disk.ops, ack) == Closing(old(disk.files), datum, delivery, disk.script, old(disk.ops))
  {
    hide Documents, Storing;
    var inhalte := Inhalte(delivery);
    if inhalte == None {
      return Negative;
    }
    var r := Ablegen(disk, inhalte.value, datum);
    match r {
      case Placed(_) => return Positive;
      case Threw(_) => return Negative;
      case Died => return NoAck;
    }
  }

  /** One run of the script: its date, whether configuration and directory are usable, the bank, and what happens at
      every file operation. */
  datatype Run = Run(datum: string, ready: bool, bank: Bank, script: nat -> Fault)

  /** The directory and the receipt after a run. */
  function Fetching(files: Files, run: Run, k: nat): Closed {
    if run.ready && run.bank.Delivers? then Closing(files, run.datum, run.bank.delivery, run.script, k)
    else Closed(files, k, NoAck)
  }

  /** `ebicsAbholen` and the exit code of the script; no exit code if the process died. */
  method Abholen(disk: Disk, run: Run) returns (exit: Option<nat>, ack: Ack)
    requires run.script == disk.script
    modifies disk
    ensures Closed(disk.files, disk.ops, ack) == Fetching(old(disk.files), run, old(disk.ops))
    ensures old(disk.ops) == 0 ==> RunRight(old(disk.files), run, Closed(disk.files, disk.ops, ack))
    ensures exit ==
              if !run.ready then Some(1)
              else if run.bank.Throws? then Some(ExitCode(run.bank.trouble))
              else if ack == NoAck then None
              else if run.bank.receipt.Some? then Some(ExitCode(run.bank.receipt.value))
              else Some(if ack == Negative then 3 else 0)
  {
    hide Closing, RunRight;
    FetchingIsRight(disk.files, run);
    if !run.ready {
      return Some(ExitCode(Configuration)), NoAck;
    }
    if run.bank.Throws? {
      return Some(ExitCode(run.bank.trouble)), NoAck;
    }
    ack := AckClosure(disk, run.datum, run.bank.delivery);
    if ack == NoAck {
      return None, ack;
    }
    if run.bank.receipt.Some? {
      return Some(ExitCode(run.bank.receipt.value)), ack;
    }
    return Some(if ack == Negative then ExitCode(Storage) else 0), ack;
  }

  // ----- all runs --------------------------------------------------------------------------

  /** `states[i]` is the directory before run `i`; each is what the run before has made of it. */
  predicate History(states: seq<Files>, runs: seq<Run>) {
    && |states| == |runs| + 1
    && forall i | 0 <= i < |runs| :: states[i + 1] == Fetching(states[i], runs[i], 0).files
  }

  /** The receipt of run `i`. */
  function Receipt(states: seq<Files>, runs: seq<Run>, i: nat): Ack
    requires i < |runs| < |states|
  {
    Fetching(states[i], runs[i], 0).ack
  }

  function DocumentsOf(run: Run): seq<string> {
    if run.ready && run.bank.Delivers? && Documents(run.bank.delivery).Some? then Documents(run.bank.delivery).value
    else []
  }

  /** The names whose removal failed in a run. */
  function StuckOf(files: Files, run: Run): seq<string> {
    var s := Storing(files, DocumentsOf(run), run.datum, run.script, 0);
    if s.outcome.Threw? then s.outcome.stuck else []
  }

  /** No removal of the run's clean-up failed. */
  ghost predicate RemovalsWork(files: Files, run: Run) {
    var docs := DocumentsOf(run);
    forall n | CleanUpStart(files, docs, run.datum, run.script, 0) < n <= Storing(files, docs, run.datum, run.script, 0).ops
      :: !run.script(n).Fails?
  }

  /** Every document has come under a new name of its own, and nothing else has. */
  ghost predicate Received(before: Files, after: Files, docs: seq<string>) {
    exists names :: Holds(after, names, docs) && Grown(before, after, names)
  }

  /** What one run may do to the directory, and what its receipt stands for. */
  ghost predicate RunRight(before: Files, run: Run, after: Closed) {
    && Kept(before, after.files) && OnlyOf(before, after.files, DocumentsOf(run))
    && (after.ack == Positive ==>
          && run.bank.Delivers? && Documents(run.bank.delivery) == Some(DocumentsOf(run))
          && Received(before, after.files, DocumentsOf(run)))
    && (after.ack == Negative ==>
          && (forall name | Visible(name) :: name in after.files <==> name in before || name in StuckOf(before, run))
          && (RemovalsWork(before, run) ==> StuckOf(before, run) == []))
  }

  lemma FetchingIsRight(before: Files, run: Run)
    ensures RunRight(before, run, Fetching(before, run, 0))
  {
    hide Storing, Documents, StuckOf, StoresRight, RunRight, AckOf;
    if run.ready && run.bank.Delivers? && Documents(run.bank.delivery).Some? {
      StoringIsRight(before, DocumentsOf(run), run.datum, run.script, 0);
      StoredRunIsRight(before, run);
    } else {
      NothingDone(before, run);
    }
  }

  lemma StoredRunIsRight(before: Files, run: Run)
    requires run.ready && run.bank.Delivers? && Documents(run.bank.delivery).Some?
    requires StoresRight(before, DocumentsOf(run), run.datum, run.script, 0,
                         Storing(before, DocumentsOf(run), run.datum, run.script, 0))
    ensures var s := Storing(before, DocumentsOf(run), run.datum, run.script, 0);
            RunRight(before, run, Closed(s.files, s.ops, AckOf(s.outcome)))
  {
    hide Storing, Holds, Grown, Documents, NoNameLeft, CleanUpStart, ToRemove, Kept, OnlyOf;
    var s := Storing(before, DocumentsOf(run), run.datum, run.script, 0);
    if s.outcome.Threw? && s.outcome.stuck != [] {
      assert s.outcome.stuck[0] in s.outcome.stuck;
      var start := CleanUpStart(before, DocumentsOf(run), run.datum, run.script, 0);
      var names := ToRemove(before, DocumentsOf(run), run.datum, run.script, 0);
      var i :| 0 <= i < |names| && names[i] == s.outcome.stuck[0];
      assert run.script(start + i + 1).Fails?;
      assert !RemovalsWork(before, run);
    }
  }

  lemma NothingDone(before: Files, run: Run)
    requires !run.ready || !run.bank.Delivers? || Documents(run.bank.delivery) == None
    ensures RunRight(before, run, Closed(before, 0, NoAck)) && RunRight(before, run, Closed(before, 0, Negative))
  {
    hide Documents;
    assert DocumentsOf(run) == [];
    assert StoredFirst(before, [], run.datum, run.script, 0) == Progress(before, 0, [], Done);
  }

  /** A fault or the want of a name is the only reason to withhold the receipt for readable documents. */
  lemma PositiveUnlessFault(before: Files, run: Run)
    requires run.ready && run.bank.Delivers? && Documents(run.bank.delivery).Some?
    ensures var after := Fetching(before, run, 0);
            after.ack == Positive || Faulty(run.script, 0, after.ops) || NoNameLeft(before, run.datum, |DocumentsOf(run)|)
  {
    StoringIsRight(before, DocumentsOf(run), run.datum, run.script, 0);
    hide Storing, Holds, Grown, Documents, NoNameLeft, CleanUpStart;
  }

  lemma {:induction false} KeptThrough(states: seq<Files>, runs: seq<Run>, i: nat, j: nat)
    requires History(states, runs) && i <= j <= |runs|
    ensures Kept(states[i], states[j])
    decreases j
  {
    hide Fetching;
    if i < j {
      KeptThrough(states, runs, i, j - 1);
      FetchingIsRight(states[j - 1], runs[j - 1]);
      assert states[j - 1 + 1] == Fetching(states[j - 1], runs[j - 1], 0).files;
    }
  }

  /** The codes of the timer: an empty day is no failure, and every other trouble has a code of its own. */
  lemma ExitCodesTellApart(a: Trouble, b: Trouble)
    ensures ExitCode(a) == ExitCode(b) <==> a == b
    ensures ExitCode(NothingNew) == 0 && ExitCode(Configuration) == 1 && ExitCode(Protocol) == 2
    ensures ExitCode(Storage) == 3 && ExitCode(KeysChanged) == 4
  {
  }

  /** The files of run `i`, still whole in the directory after all runs. */
  predicate Safe(states: seq<Files>, runs: seq<Run>, i: nat, names: seq<string>)
    requires i < |runs| && |states| == |runs| + 1
  {
    && Holds(states[|runs|], names, DocumentsOf(runs[i]))
    && forall k | 0 <= k < |names| :: names[k] !in states[i] && names[k] in states[i + 1]
  }

  lemma KeptHolds(before: Files, after: Files, names: seq<string>, docs: seq<string>)
    requires Holds(before, names, docs) && Kept(before, after)
    ensures Holds(after, names, docs)
  {
  }

  /** Nothing acknowledged is lost: after any sequence of runs, with failures and deaths at any file operation, every
      document of a positively acknowledged delivery is in the directory under a name of its own, with its whole
      content. */
  lemma NothingAcknowledgedIsLost(states: seq<Files>, runs: seq<Run>, i: nat)
    requires History(states, runs) && i < |runs| && Receipt(states, runs, i) == Positive
    ensures runs[i].bank.Delivers? && Contains(runs[i].bank.delivery, DocumentsOf(runs[i]))
    ensures exists names :: Safe(states, runs, i, names)
  {
    hide Kept, Documents, DocumentsOf, Fetching, Holds, Contains;
    FetchingIsRight(states[i], runs[i]);
    DocumentsAreContained(runs[i].bank.delivery);
    var docs := DocumentsOf(runs[i]);
    var names :| Holds(states[i + 1], names, docs) && Grown(states[i], states[i + 1], names);
    KeptThrough(states, runs, i + 1, |runs|);
    KeptHolds(states[i + 1], states[|runs|], names, docs);
    HoldsNames(states[i + 1], names, docs);
    assert Safe(states, runs, i, names);
  }

  /** This text lies whole in a visible file that the run has made. */
  ghost predicate KeptSince(states: seq<Files>, runs: seq<Run>, i: nat, text: string)
    requires i < |runs| && |states| == |runs| + 1
  {
    exists name :: && Visible(name) && name !in states[i] && name in states[i + 1]
                   && name in states[|runs|] && states[|runs|][name] == text
  }

  /** The same, said of the delivery: after a positive receipt a plain document and every readable entry of an archive
      lies whole in a file of its run, and an archive that could not be opened is never acknowledged. */
  lemma WhatTheBankSentIsKept(states: seq<Files>, runs: seq<Run>, i: nat)
    requires History(states, runs) && i < |runs| && Receipt(states, runs, i) == Positive
    ensures runs[i].bank.Delivers?
    ensures var d := runs[i].bank.delivery;
            var archive := "PK\U{03}\U{04}" <= d.data;
            && (!White(d.data) && !archive ==> KeptSince(states, runs, i, d.data))
            && (archive ==> d.entries.Some?
                            && forall text | Some(text) in d.entries.value && !White(text) :: KeptSince(states, runs, i, text))
  {
    hide Fetching, DocumentsOf, Kept, KeptSince, Safe, White, Contains;
    NothingAcknowledgedIsLost(states, runs, i);
    var d, docs := runs[i].bank.delivery, DocumentsOf(runs[i]);
    var names :| Safe(states, runs, i, names);
    forall text | text in docs ensures KeptSince(states, runs, i, text) {
      var k :| 0 <= k < |docs| && docs[k] == text;
      DocumentIsKept(states, runs, i, names, k);
    }
    if "PK\U{03}\U{04}" <= d.data {
      ArchiveIsNotWhite(d.data);
    }
    ContainedTexts(d, docs);
  }

  lemma DocumentIsKept(states: seq<Files>, runs: seq<Run>, i: nat, names: seq<string>, k: nat)
    requires i < |runs| && |states| == |runs| + 1 && Safe(states, runs, i, names) && k < |DocumentsOf(runs[i])|
    ensures KeptSince(states, runs, i, DocumentsOf(runs[i])[k])
  {
    hide DocumentsOf;
    assert Visible(names[k]) && names[k] !in states[i] && names[k] in states[i + 1];
  }

  lemma ContainedTexts(d: Delivery, docs: seq<string>)
    requires Contains(d, docs)
    ensures !White(d.data) && !("PK\U{03}\U{04}" <= d.data) ==> d.data in docs
    ensures !White(d.data) && "PK\U{03}\U{04}" <= d.data ==>
              d.entries.Some? && forall text | Some(text) in d.entries.value && !White(text) :: text in docs
  {
    hide White, InOrder;
    if !White(d.data) && "PK\U{03}\U{04}" <= d.data {
      var at :| InOrder(d.entries.value, docs, at);
      InOrderTexts(d.entries.value, docs, at);
    }
  }

  lemma InOrderTexts(entries: seq<Option<string>>, docs: seq<string>, at: seq<nat>)
    requires InOrder(entries, docs, at)
    ensures forall text | Some(text) in entries && !White(text) :: text in docs
  {
    hide White;
    forall text | Some(text) in entries && !White(text) ensures text in docs {
      var e :| 0 <= e < |entries| && entries[e] == Some(text);
      var k :| 0 <= k < |at| && at[k] == e;
      assert docs[k] == text;
    }
  }

  lemma ArchiveIsNotWhite(data: string)
    requires "PK\U{03}\U{04}" <= data
    ensures !White(data)
  {
    assert data[0] == 'P' && data[0] in data;
  }

  lemma HoldsNames(files: Files, names: seq<string>, docs: seq<string>)
    requires Holds(files, names, docs)
    ensures forall k | 0 <= k < |names| :: Visible(names[k]) && names[k] in files
  {
  }

  /** Nothing is overwritten: what was ever visible stays as it was, and two runs never share a file. */
  lemma NothingIsOverwritten(
      states: seq<Files>, runs: seq<Run>, i: nat, j: nat, mine: seq<string>, theirs: seq<string>)
    requires History(states, runs) && i < j < |runs|
    requires Safe(states, runs, i, mine) && Safe(states, runs, j, theirs)
    ensures Kept(states[i], states[j])
    ensures forall k, l | 0 <= k < |mine| && 0 <= l < |theirs| :: mine[k] != theirs[l]
  {
    hide DocumentsOf, Fetching, Holds, Kept;
    KeptThrough(states, runs, i, j);
    KeptThrough(states, runs, i + 1, j);
    HoldsNames(states[|runs|], mine, DocumentsOf(runs[i]));
    Apart(states[i + 1], states[j], mine, theirs);
  }

  lemma Apart(earlier: Files, later: Files, mine: seq<string>, theirs: seq<string>)
    requires Kept(earlier, later)
    requires forall k | 0 <= k < |mine| :: Visible(mine[k]) && mine[k] in earlier
    requires forall l | 0 <= l < |theirs| :: theirs[l] !in later
    ensures forall k, l | 0 <= k < |mine| && 0 <= l < |theirs| :: mine[k] != theirs[l]
  {
  }

  /** A run that says "not stored" to the bank leaves the visible directory exactly as it was, if the removals of its
      clean-up work; a name more is one whose removal failed. */
  lemma NegativeLeavesNothing(states: seq<Files>, runs: seq<Run>, i: nat)
    requires History(states, runs) && i < |runs| && Receipt(states, runs, i) == Negative
    ensures forall name | Visible(name) ::
              (name in states[i + 1] <==> name in states[i] || name in StuckOf(states[i], runs[i]))
              && (name in states[i] ==> states[i + 1][name] == states[i][name])
    ensures RemovalsWork(states[i], runs[i]) ==>
              forall name | Visible(name) :: name in states[i + 1] <==> name in states[i]
  {
    FetchingIsRight(states[i], runs[i]);
    hide Fetching, StuckOf, RemovalsWork, DocumentsOf, Documents;
  }

  /** No visible file is ever half a document: whatever has appeared since the beginning is a whole document of some
      delivery, even after a run that died. */
  lemma {:induction false} OnlyWholeDocuments(states: seq<Files>, runs: seq<Run>, j: nat, name: string)
    requires History(states, runs) && j <= |runs|
    requires name in states[j] && Visible(name) && name !in states[0]
    ensures exists i | 0 <= i < j :: states[j][name] in DocumentsOf(runs[i])
    decreases j
  {
    hide Fetching, DocumentsOf, StuckOf, RemovalsWork, Documents;
    var i := j - 1;
    FetchingIsRight(states[i], runs[i]);
    assert states[i + 1] == Fetching(states[i], runs[i], 0).files;
    if name in states[i] {
      OnlyWholeDocuments(states, runs, i, name);
    } else {
      assert states[j][name] in DocumentsOf(runs[i]);
    }
  }

  lemma {:induction false} UnreadableYieldsNothing(entries: seq<Option<string>>)
    requires forall i | 0 <= i < |entries| :: !Readable(entries[i])
    ensures ReadableOnes(entries) == []
    decreases |entries|
  {
    if entries != [] {
      UnreadableYieldsNothing(entries[..|entries| - 1]);
    }
  }

  /** What the receipt does not cover: an archive without a readable document is acknowledged too, and nothing is
      stored. */
  lemma UnreadableIsAcknowledged(files: Files, datum: string, delivery: Delivery, script: nat -> Fault, k: nat)
    requires IsZip(delivery.data) && delivery.entries.Some?
    requires forall i | 0 <= i < |delivery.entries.value| :: !Readable(delivery.entries.value[i])
    ensures Closing(files, datum, delivery, script, k) == Closed(files, k, Positive)
  {
    UnreadableYieldsNothing(delivery.entries.value);
    assert Documents(delivery) == Some([]);
    assert StoredFirst(files, [], datum, script, k) == Progress(files, k, [], Done);
  }
}
