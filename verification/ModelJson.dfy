/** The JSON values both model adapters work on, and the small checks they share.  Objects are maps, so the
    order of members and repeated names are not seen; a raw message that is absent is `None`. */
module ModelJson {
  import opened Wrappers

  datatype Json =
    | Null
    | Bool(value: bool)
    | Num(number: int)
    | Text(text: string)
    | List(items: seq<Json>)
    | Object(members: map<string, Json>)

  type Raw = Option<Json>

  const PLACEHOLDER: string := "[Werkzeug-Inhalt in diesem Modell-Durchgang nicht darstellbar.]"

  function Get(members: map<string, Json>, name: string): Raw {
    if name in members then Some(members[name]) else None
  }

  /** `str`: the text, or nothing for everything that is not one. */
  function Str(raw: Raw): string {
    if raw.Some? && raw.value.Text? then raw.value.text else ""
  }

  function Mapped<T, U>(f: T -> U, s: seq<T>): seq<U> {
    seq(|s|, i requires 0 <= i < |s| => f(s[i]))
  }

  lemma MappedAppend<T, U>(f: T -> U, s: seq<T>, x: T)
    ensures Mapped(f, s + [x]) == Mapped(f, s) + [f(x)]
  {
  }

  /** A string field of a Go struct: absent and null leave it empty, anything but a text is an error. */
  function StringField(members: map<string, Json>, name: string): Option<string> {
    if name !in members || members[name].Null? then Some("")
    else if members[name].Text? then Some(members[name].text)
    else None
  }

  // ----- what both forms of the conversation share -----------------------------------------

  datatype ToolCall = ToolCall(id: string, name: string, input: Raw)

  datatype Turn = Turn(text: string, stop: string, calls: seq<ToolCall>)

  /** What a tool call has brought, still in the form of the tool protocol. */
  datatype ToolOutcome = ToolOutcome(id: string, raw: Json)

  function CallIds(calls: seq<ToolCall>): seq<string> {
    seq(|calls|, i requires 0 <= i < |calls| => calls[i].id)
  }

  function OutcomeIds(outcomes: seq<ToolOutcome>): seq<string> {
    seq(|outcomes|, i requires 0 <= i < |outcomes| => outcomes[i].id)
  }

  predicate Unique(ids: seq<string>) {
    forall i, j | 0 <= i < j < |ids| :: ids[i] != ids[j]
  }

  /** What the run ends with when no turn comes: its end and its detail. */
  datatype Halt = Halt(end: string, detail: string)

  const GATEWAY_ERROR: Halt := Halt("error", "gateway")
  const REJECTED: Halt := Halt("error", "rejected")

  /** A tool result as Go decodes it; an odd part is skipped and remembered. */
  datatype Decoded = Decoded(blocks: seq<map<string, Json>>, structured: Raw, isError: bool, odd: bool)

  function BlockOf(item: Json): map<string, Json> {
    if item.Object? then item.members else map[]
  }

  function DecodeResult(raw: Json): Decoded {
    if !raw.Object? then Decoded([], None, false, !raw.Null?)
    else
      var m := raw.members;
      var content, flag := Get(m, "content"), Get(m, "isError");
      var items := if content.Some? && content.value.List? then content.value.items else [];
      Decoded(
        Mapped(BlockOf, items), Get(m, "structuredContent"), flag == Some(Bool(true)),
        || (content.Some? && !content.value.Null? && !content.value.List?)
        || (exists i | 0 <= i < |items| :: !items[i].Object? && !items[i].Null?)
        || (flag.Some? && !flag.value.Null? && !flag.value.Bool?))
  }

  /** A result as the tool protocol has it: a list of content objects, perhaps a structured part, perhaps marked. */
  predicate ProtocolResult(raw: Json, items: seq<map<string, Json>>, structured: Raw, isError: bool) {
    && raw.Object?
    && Get(raw.members, "content") == Some(List(seq(|items|, i requires 0 <= i < |items| => Object(items[i]))))
    && Get(raw.members, "structuredContent") == structured
    && (Get(raw.members, "isError") == Some(Bool(isError)) || (Get(raw.members, "isError") == None && !isError))
  }

  /** A result of the protocol is read as it is. */
  lemma ProtocolResultIsRead(raw: Json, items: seq<map<string, Json>>, structured: Raw, isError: bool)
    requires ProtocolResult(raw, items, structured, isError)
    ensures DecodeResult(raw) == Decoded(items, structured, isError, false)
  {
    assert Mapped(BlockOf, seq(|items|, i requires 0 <= i < |items| => Object(items[i]))) == items;
  }

  // ----- `only` ----------------------------------------------------------------------------

  function Joined(names: seq<string>): string {
    if names == [] then "" else if |names| == 1 then names[0] else names[0] + " " + Joined(names[1..])
  }

  predicate Contains(text: string, part: string) {
    exists i | 0 <= i <= |text| - |part| :: StartsAt(text, part, i)
  }

  predicate StartsAt(text: string, part: string, i: nat)
    requires i + |part| <= |text|
  {
    text[i..i + |part|] == part
  }

  /** The source's test for a member name: a search in the list of allowed names, with blanks around both. */
  predicate Listed(names: seq<string>, name: string) {
    Contains(" " + Joined(names) + " ", " " + name + " ")
  }

  predicate Only(members: map<string, Json>, names: seq<string>) {
    forall name | name in members :: Listed(names, name)
  }

  /** A member with a text that is not empty. */
  predicate Texted(m: map<string, Json>, name: string) {
    name in m && m[name].Text? && m[name].text != ""
  }

  /** No member has a blank in its name. */
  predicate NoBlanks(members: map<string, Json>) {
    forall name | name in members :: ' ' !in name
  }

  lemma OnlyWithin(members: map<string, Json>, names: seq<string>, allowed: set<string>)
    requires AllWords(names) && NoBlanks(members) && forall name :: name in names <==> name in allowed
    ensures Only(members, names) <==> members.Keys <= allowed
  {
    OnlyIsMembership(members, names);
    hide Only, AllWords;
    if members.Keys <= allowed {
      assert forall name | name in members :: name in names;
    }
  }

  lemma OnlyListed(members: map<string, Json>, names: seq<string>)
    requires forall name | name in members :: Listed(names, name)
    ensures Only(members, names)
  {
  }

  lemma OnlyOf(members: map<string, Json>, names: seq<string>)
    requires forall name | name in members :: name in names
    ensures Only(members, names)
  {
    forall name | name in members ensures Listed(names, name) {
      AllowedIsListed(names, name);
    }
  }

  lemma ContainsLater(text: string, part: string, front: string, back: string)
    requires Contains(text, part)
    ensures Contains(front + text + back, part)
  {
    var i :| 0 <= i <= |text| - |part| && StartsAt(text, part, i);
    assert (front + text + back)[|front| + i..|front| + i + |part|] == text[i..i + |part|];
    assert StartsAt(front + text + back, part, |front| + i);
  }

  /** Every allowed name is found. */
  lemma {:induction false} AllowedIsListed(names: seq<string>, name: string)
    requires name in names
    ensures Listed(names, name)
    decreases |names|
  {
    var whole := " " + Joined(names) + " ";
    if names[0] == name {
      var rest := whole[|name| + 2..];
      assert whole == " " + name + " " + rest;
      assert StartsAt(whole, " " + name + " ", 0);
    } else {
      AllowedIsListed(names[1..], name);
      var inner := " " + Joined(names[1..]) + " ";
      assert whole == " " + names[0] + inner + "";
      ContainsLater(inner, " " + name + " ", " " + names[0], "");
    }
  }

  predicate OneWord(name: string) {
    name != "" && ' ' !in name
  }

  predicate AllWords(names: seq<string>) {
    names != [] && forall n | n in names :: OneWord(n)
  }

  /** The list with a blank around every name. */
  function Wrapped(names: seq<string>): string {
    if names == [] then " " else " " + names[0] + Wrapped(names[1..])
  }

  lemma {:induction false} JoinedIsWrapped(names: seq<string>)
    requires names != []
    ensures " " + Joined(names) + " " == Wrapped(names)
    decreases |names|
  {
    if |names| > 1 {
      JoinedIsWrapped(names[1..]);
      assert " " + Joined(names) + " " == " " + names[0] + (" " + Joined(names[1..]) + " ");
    }
  }

  lemma WordChars(first: string, rest: string)
    requires OneWord(first) && rest != "" && rest[0] == ' '
    ensures var whole := " " + first + rest;
            && whole[|first| + 1] == ' ' && whole[|first| + 1..] == rest
            && (forall k | 0 < k <= |first| :: whole[k] == first[k - 1] && whole[k] != ' ')
  {
  }

  /** What ends with a blank and begins with the first word is this word, or goes on with the rest. */
  lemma FirstWord(word: string, rest: string, name: string)
    requires OneWord(word) && rest != "" && rest[0] == ' ' && " " + name + " " <= " " + word + rest
    ensures |word| <= |name| && (|name| == |word| ==> name == word)
    ensures |word| < |name| ==> name == word + " " + name[|word| + 1..] && " " + name[|word| + 1..] + " " <= rest
  {
    var part, whole := " " + name + " ", " " + word + rest;
    WordChars(word, rest);
    assert part[|name| + 1] == whole[|name| + 1] == ' ';
    assert forall k | 0 <= k < |word| :: name[k] == part[k + 1] == whole[k + 1] == word[k];
    if |word| < |name| {
      assert name[|word|] == part[|word| + 1] == whole[|word| + 1] == ' ';
      assert " " + name[|word| + 1..] + " " == part[|word| + 1..] <= whole[|word| + 1..];
    }
  }

  /** What begins where the list begins, and ends with a blank, is a run of its first names. */
  lemma {:induction false} PrefixIsARun(names: seq<string>, name: string) returns (n: nat)
    requires AllWords(names) && " " + name + " " <= Wrapped(names)
    ensures 0 < n <= |names| && name == Joined(names[..n])
    decreases |names|
  {
    var word := names[0];
    FirstWord(word, Wrapped(names[1..]), name);
    if |name| == |word| {
      n := 1;
    } else {
      var tail := name[|word| + 1..];
      assert names[1..] != [];
      var m := PrefixIsARun(names[1..], tail);
      n := m + 1;
      assert names[..n][1..] == names[1..][..m] && names[..n][0] == word;
    }
  }

  /** What is found between blanks is a run of names. */
  lemma {:induction false} FoundIsARun(names: seq<string>, name: string, p: nat) returns (i: nat, j: nat)
    requires AllWords(names) && p + |name| + 2 <= |Wrapped(names)| && StartsAt(Wrapped(names), " " + name + " ", p)
    ensures i < j <= |names| && name == Joined(names[i..j])
    decreases |names|
  {
    var word, rest, whole, part := names[0], Wrapped(names[1..]), Wrapped(names), " " + name + " ";
    if p == 0 {
      i := 0;
      j := PrefixIsARun(names, name);
      assert names[0..j] == names[..j];
    } else {
      WordChars(word, rest);
      assert whole[p] == whole[p..p + |part|][0] == ' ';
      var q := p - |word| - 1;
      assert rest[q..q + |part|] == whole[p..p + |part|];
      assert names[1..] != [];
      i, j := FoundIsARun(names[1..], name, q);
      assert names[1..][i..j] == names[i + 1..j + 1];
      i, j := i + 1, j + 1;
    }
  }

  lemma {:induction false} RunIsPrefix(names: seq<string>, n: nat)
    requires 0 < n <= |names|
    ensures " " + Joined(names[..n]) + " " <= Wrapped(names)
    decreases |names|
  {
    var word := names[0];
    if n == 1 {
      assert names[..1] == [word] && Wrapped(names[1..])[0] == ' ';
    } else {
      RunIsPrefix(names[1..], n - 1);
      assert names[..n][1..] == names[1..][..n - 1];
      assert " " + Joined(names[..n]) + " " == " " + word + (" " + Joined(names[1..][..n - 1]) + " ");
    }
  }

  lemma {:induction false} RunIsFound(names: seq<string>, i: nat, j: nat)
    requires i < j <= |names|
    ensures Contains(Wrapped(names), " " + Joined(names[i..j]) + " ")
    decreases i
  {
    var part := " " + Joined(names[i..j]) + " ";
    if i == 0 {
      RunIsPrefix(names, j);
      assert names[0..j] == names[..j];
      assert StartsAt(Wrapped(names), part, 0);
    } else {
      RunIsFound(names[1..], i - 1, j - 1);
      assert names[1..][i - 1..j - 1] == names[i..j];
      ContainsLater(Wrapped(names[1..]), part, " " + names[0], "");
      assert " " + names[0] + Wrapped(names[1..]) + "" == Wrapped(names);
    }
  }

  predicate IsRun(names: seq<string>, name: string, i: nat, j: nat) {
    i < j <= |names| && name == Joined(names[i..j])
  }

  /** What the search in a list of one-word names really accepts: the runs of neighbouring names with blanks between. */
  lemma ListedIsARun(names: seq<string>, name: string)
    requires AllWords(names)
    ensures Listed(names, name) <==> exists i: nat, j: nat :: IsRun(names, name, i, j)
  {
    hide Joined, Wrapped;
    var part := " " + name + " ";
    JoinedIsWrapped(names);
    if Listed(names, name) {
      var p :| 0 <= p <= |Wrapped(names)| - |part| && StartsAt(Wrapped(names), part, p);
      var i, j := FoundIsARun(names, name, p);
      assert IsRun(names, name, i, j);
    }
    if i: nat, j: nat :| IsRun(names, name, i, j) {
      RunIsFound(names, i, j);
    }
  }

  lemma LongRunsHaveBlanks(names: seq<string>, name: string, i: nat, j: nat)
    requires IsRun(names, name, i, j)
    ensures name in names || ' ' in name
  {
    var run := names[i..j];
    if |run| == 1 {
      assert run[0] == names[i];
    } else {
      assert Joined(run)[|run[0]|] == ' ';
    }
  }

  /** A listed name is one of the names exactly if it has no blank. */
  lemma ListedIsMembership(names: seq<string>, name: string)
    requires AllWords(names)
    ensures name in names <==> Listed(names, name) && ' ' !in name
  {
    ListedIsARun(names, name);
    if name in names {
      AllowedIsListed(names, name);
    } else if Listed(names, name) {
      var i: nat, j: nat :| IsRun(names, name, i, j);
      LongRunsHaveBlanks(names, name, i, j);
    }
  }

  /** The check of an object's members means what it is for exactly if no member name has a blank. */
  lemma OnlyIsMembership(members: map<string, Json>, names: seq<string>)
    requires AllWords(names)
    ensures (forall name | name in members :: name in names) <==>
            Only(members, names) && forall name | name in members :: ' ' !in name
  {
    hide AllWords, Listed;
    forall name | name in members ensures name in names <==> Listed(names, name) && ' ' !in name {
      ListedIsMembership(names, name);
    }
  }
}
