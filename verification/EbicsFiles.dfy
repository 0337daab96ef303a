/** One directory as the EBICS scripts use it: writes, renames and removals that may fail or be the last thing
    the process does, and the search for a free name. */
module EbicsFiles {
  import opened Wrappers
  import opened FileNames
  import opened JsonText

  type Files = map<string, string>

  /** What PHP's `trim` removes. */
  predicate IsSpace(c: char) {
    c == ' ' || c == '\t' || c == '\n' || c == '\r' || c == '\0' || c == '\U{0B}'
  }

  predicate Blank(text: string) {
    forall c | c in text :: IsSpace(c)
  }

  /** Nothing but white space. */
  predicate White(text: string) {
    forall c | c in text :: c in [' ', '\t', '\n', '\r', '\0', '\U{0B}']
  }

  lemma BlankIsWhite(text: string)
    ensures Blank(text) <==> White(text)
  {
  }

  /** What happens at one file operation.  A failing or dying write may leave any content behind; a dying process
      may or may not have completed the operation. */
  datatype Fault = Fine | Fails(left: Option<string>) | Dies(completed: bool, left: Option<string>)

  datatype Op = Done | Failed | Dead

  /** Readers of the directory do not look at hidden names. */
  predicate Visible(name: string) {
    name != "" && name[0] != '.'
  }

  /** The hidden name a file is written under before it is renamed. */
  function Hidden(name: string): (hidden: string)
    ensures !Visible(hidden) && hidden != name
  {
    "." + name + ".teil"
  }

  /** No visible file has changed or gone. */
  predicate Kept(before: Files, after: Files) {
    forall name | name in before && Visible(name) :: name in after && after[name] == before[name]
  }

  /** Something went wrong at one of the operations after `from`, up to `to`. */
  ghost predicate Faulty(script: nat -> Fault, from: nat, to: nat) {
    exists n | from < n <= to :: !script(n).Fine?
  }

  /** The process died at one of these operations. */
  ghost predicate Deadly(script: nat -> Fault, from: nat, to: nat) {
    exists n | from < n <= to :: script(n).Dies?
  }

  lemma DeadlyOn(script: nat -> Fault, from: nat, to: nat)
    ensures Deadly(script, from, to + 1) <==> Deadly(script, from, to) || (from <= to && script(to + 1).Dies?)
    ensures !Deadly(script, from, from)
  {
  }

  lemma DeadlyParts(script: nat -> Fault, from: nat, middle: nat, to: nat)
    requires from <= middle <= to
    ensures Deadly(script, from, to) <==> Deadly(script, from, middle) || Deadly(script, middle, to)
  {
    if n :| from < n <= to && script(n).Dies? {
      assert n <= middle || middle < n;
    }
  }

  // ----- operations ------------------------------------------------------------------------

  /** What a failed or dying write leaves under the name. */
  function Left(files: Files, name: string, left: Option<string>): Files {
    if left.Some? then files[name := left.value] else files
  }

  function Written(files: Files, name: string, content: string, fault: Fault): (Files, Op) {
    match fault
    case Fine => (files[name := content], Done)
    case Fails(left) => (Left(files, name, left), Failed)
    case Dies(completed, left) => (if completed then files[name := content] else Left(files, name, left), Dead)
  }

  function Moved(files: Files, from: string, to: string): Files
    requires from in files
  {
    (files - {from})[to := files[from]]
  }

  function Renamed(files: Files, from: string, to: string, fault: Fault): (Files, Op) {
    match fault
    case Fine => if from in files then (Moved(files, from, to), Done) else (files, Failed)
    case Fails(_) => (files, Failed)
    case Dies(completed, _) => (if completed && from in files then Moved(files, from, to) else files, Dead)
  }

  function Unlinked(files: Files, name: string, fault: Fault): (Files, Op) {
    match fault
    case Fine => if name in files then (files - {name}, Done) else (files, Failed)
    case Fails(_) => (files, Failed)
    case Dies(completed, _) => (if completed then files - {name} else files, Dead)
  }

  /** A copy can leave anything under the new name when it fails. */
  function Copied(files: Files, from: string, to: string, fault: Fault): (Files, Op) {
    if from in files then Written(files, to, files[from], fault) else (files, if fault.Dies? then Dead else Failed)
  }

  /** What an operation says is what it has done: success means done, a failure of a rename or a removal means untouched,
      and whatever happens, a write changes no other name, and a rename or a removal is whole or not at all. */
  lemma OperationsAreWhole(files: Files, name: string, to: string, content: string, fault: Fault)
    ensures var (after, op) := Written(files, name, content, fault);
            && after - {name} == files - {name} && (op.Done? <==> fault.Fine?) && (op.Dead? <==> fault.Dies?)
            && (op.Done? ==> after == files[name := content])
    ensures var (after, op) := Renamed(files, name, to, fault);
            && (after == files || (name in files && after == Moved(files, name, to)))
            && (op.Done? <==> fault.Fine? && name in files) && (op.Dead? <==> fault.Dies?)
            && (op.Done? ==> after == Moved(files, name, to)) && (op.Failed? ==> after == files)
    ensures var (after, op) := Unlinked(files, name, fault);
            && (after == files || after == files - {name})
            && (op.Done? <==> fault.Fine? && name in files) && (op.Dead? <==> fault.Dies?)
            && (op.Done? ==> name !in after) && (op.Failed? ==> after == files)
  {
  }

  lemma WrittenThere(files: Files, name: string, content: string, fault: Fault)
    ensures Written(files, name, content, fault).0 - {name} == files - {name}
  {
  }

  class Disk {
    var files: Files
    var ops: nat
    const script: nat -> Fault

    constructor (files: Files, script: nat -> Fault)
      ensures this.files == files && ops == 0 && this.script == script
    {
      this.files, ops, this.script := files, 0, script;
    }

    /** `file_put_contents`, which replaces what is there. */
    method Write(name: string, content: string) returns (op: Op)
      modifies this
      ensures (files, op) == Written(old(files), name, content, script(ops))
      ensures ops == old(ops) + 1
    {
      ops := ops + 1;
      match script(ops) {
        case Fine =>
          files := files[name := content];
          op := Done;
        case Fails(left) =>
          if left.Some? {
            files := files[name := left.value];
          }
          op := Failed;
        case Dies(completed, left) =>
          if completed {
            files := files[name := content];
          } else if left.Some? {
            files := files[name := left.value];
          }
          op := Dead;
      }
    }

    /** `rename` within the directory, which is atomic. */
    method Rename(from: string, to: string) returns (op: Op)
      modifies this
      ensures (files, op) == Renamed(old(files), from, to, script(ops))
      ensures ops == old(ops) + 1
    {
      ops := ops + 1;
      var fault := script(ops);
      op := if fault.Dies? then Dead else if fault.Fails? || from !in files then Failed else Done;
      if from in files && (fault.Fine? || (fault.Dies? && fault.completed)) {
        files := (files - {from})[to := files[from]];
      }
    }

    method Unlink(name: string) returns (op: Op)
      modifies this
      ensures (files, op) == Unlinked(old(files), name, script(ops))
      ensures ops == old(ops) + 1
    {
      ops := ops + 1;
      var fault := script(ops);
      op := if fault.Dies? then Dead else if fault.Fails? || name !in files then Failed else Done;
      if fault.Fine? || (fault.Dies? && fault.completed) {
        assert name !in files ==> files - {name} == files;
        files := files - {name};
      }
    }

    method Copy(from: string, to: string) returns (op: Op)
      modifies this
      ensures (files, op) == Copied(old(files), from, to, script(ops))
      ensures ops == old(ops) + 1
    {
      if from !in files {
        ops := ops + 1;
        return if script(ops).Dies? then Dead else Failed;
      }
      op := Write(to, files[from]);
    }
  }

  // ----- free names ------------------------------------------------------------------------

  const LAST_NUMBER: nat := 999

  /** The part after the last dot, and the name without it. */
  function Extension(name: string): string {
    var dot := LastDot(name);
    if dot < 0 then "" else name[dot + 1..]
  }

  function Stem(name: string): string {
    if Extension(name) == "" then name else name[..LastDot(name)]
  }

  /** The name under a number: the first is the name itself. */
  function Candidate(name: string, number: nat): string {
    Stem(name) + (if number == 1 then "" else "-" + Digits(number))
    + (if Extension(name) == "" then "" else "." + Extension(name))
  }

  lemma FirstCandidate(name: string)
    ensures Candidate(name, 1) == name
  {
    var dot := LastDot(name);
    if Extension(name) != "" {
      assert name == name[..dot] + "." + name[dot + 1..];
    }
  }

  /** The first free name from this number on. */
  function FreeFrom(name: string, files: Files, number: nat): Option<string>
    decreases LAST_NUMBER + 1 - number
  {
    if number > LAST_NUMBER then None
    else if Candidate(name, number) !in files then Some(Candidate(name, number))
    else FreeFrom(name, files, number + 1)
  }

  /** `ebicsFreierPfad`, as a function of the directory. */
  function FreeName(name: string, files: Files): Option<string> {
    FreeFrom(name, files, 1)
  }

  lemma {:induction false} FreeFromIsFirst(name: string, files: Files, number: nat)
    requires 1 <= number <= LAST_NUMBER + 1
    ensures var r := FreeFrom(name, files, number);
            && (r.Some? ==> r.value !in files && exists n | number <= n <= LAST_NUMBER :: r.value == Candidate(name, n))
            && (r.None? <==> forall n | number <= n <= LAST_NUMBER :: Candidate(name, n) in files)
    decreases LAST_NUMBER + 1 - number
  {
    hide Candidate;
    if number <= LAST_NUMBER && Candidate(name, number) in files {
      FreeFromIsFirst(name, files, number + 1);
    }
  }

  /** `ebicsFreierPfad`: the first number whose name is free, or none exactly if all are taken. */
  method FreierPfad(name: string, files: Files) returns (r: Option<string>)
    ensures r == FreeName(name, files)
    ensures r.Some? ==> r.value !in files && exists n | 1 <= n <= 999 :: r.value == Candidate(name, n)
    ensures r.None? <==> forall n | 1 <= n <= 999 :: Candidate(name, n) in files
  {
    hide Candidate;
    FreeFromIsFirst(name, files, 1);
    for number := 1 to LAST_NUMBER + 1
      invariant FreeName(name, files) == FreeFrom(name, files, number)
    {
      var candidate := Candidate(name, number);
      if candidate !in files {
        return Some(candidate);
      }
    }
    return None;
  }

  /** Every number gives another name, so 999 files of the day have room. */
  lemma CandidatesDiffer(name: string, i: nat, j: nat)
    requires 1 <= i && 1 <= j && Candidate(name, i) == Candidate(name, j)
    ensures i == j
  {
    var tail := if Extension(name) == "" then "" else "." + Extension(name);
    var a, b := if i == 1 then "" else "-" + Digits(i), if j == 1 then "" else "-" + Digits(j);
    SameMiddle(Stem(name), a, b, tail);
    if i != 1 && j != 1 {
      assert a[1..] == Digits(i) && b[1..] == Digits(j);
      ValueOfDigits(i);
      ValueOfDigits(j);
    }
  }

  lemma SameMiddle(front: string, a: string, b: string, tail: string)
    requires front + a + tail == front + b + tail
    ensures a == b
  {
    assert |a| == |b|;
    assert a == (front + a + tail)[|front|..|front| + |a|] == (front + b + tail)[|front|..|front| + |b|] == b;
  }

  /** A name that starts visibly stays visible under every number. */
  lemma CandidateVisible(name: string, number: nat)
    requires Visible(name) && LastDot(name) != 0
    ensures Visible(Candidate(name, number))
  {
    assert Stem(name) != "" && Stem(name)[0] == name[0];
  }
}
