/** The pure contract of the write side: entries, effects, the canonical effect encoding and the
    approval hash over it. */
module Redaktion {
  import opened Wrappers
  import opened FileNames
  import opened JsonText
  import opened Utf8

  type Code = string

  datatype Action = Post | Edit | Delete | Comment

  function ActionName(action: Action): string {
    match action
    case Post => "posten"
    case Edit => "bearbeiten"
    case Delete => "loeschen"
    case Comment => "kommentar"
  }

  datatype Poll = Poll(question: string, answers: seq<string>, duration: int)

  // ----- entries -------------------------------------------------------------------------

  datatype Entry = Entry(
    postText: Option<string>, media: seq<string>, poll: Option<Poll>,
    postUrn: Option<string>, commentText: Option<string>)

  /** What `entry_from_record` guarantees of the entry it returns for an action. */
  predicate Usable(entry: Entry, action: Action) {
    match action
    case Post => entry.postUrn == None && entry.postText.Some?
    case Edit => entry.postUrn.Some? && entry.postText.Some? && entry.media == [] && entry.poll == None
    case Delete => entry.postUrn.Some? && entry.media == [] && entry.poll == None
    case Comment => entry.postUrn.Some? && entry.commentText.Some? && entry.media == [] && entry.poll == None
  }

  /** A field of a stored record: the gateway may hand over anything. */
  datatype Field = Text(text: string) | Other

  const FIELDS: seq<string> := ["post_text", "medien", "umfrage", "post_urn", "kommentar_text"]

  function Relevant(action: Action): seq<string> {
    match action
    case Post => ["post_text", "medien", "umfrage"]
    case Edit => ["post_urn", "post_text"]
    case Delete => ["post_urn"]
    case Comment => ["post_urn", "kommentar_text"]
  }

  /** The checks on single field values: regular expressions and strict JSON, taken as given. */
  datatype FieldChecks = FieldChecks(
    parseMedia: Option<string> -> Result<seq<string>, Code>,
    parsePoll: Option<string> -> Result<Option<Poll>, Code>,
    postUrn: string -> bool,
    mentionsUrn: string -> bool)

  predicate Pseudonymous(text: string) {
    '‹' in text || '›' in text
  }

  /** `fields.get(name) or None`: a missing and an empty field are the same. */
  function Get(fields: map<string, Field>, name: string): Option<string> {
    if name in fields && fields[name].Text? && fields[name].text != "" then Some(fields[name].text) else None
  }

  function EntryFromRecord(
      fields: map<string, Field>, action: Action, checks: FieldChecks): (r: Result<Entry, Code>)
    ensures r.Ok? ==> Usable(r.value, action)
    ensures r.Ok? && action != Post ==> checks.postUrn(r.value.postUrn.value)
    ensures r.Ok? ==> forall name | name in Relevant(action) && Get(fields, name).Some? ::
                        !Pseudonymous(Get(fields, name).value)
  {
    if exists name | name in FIELDS :: name in fields && fields[name].Other? then Err("eintrag_ungueltig")
    else if exists name | name in Relevant(action) ::
              name in fields && fields[name].Text? && Pseudonymous(fields[name].text) then Err("pseudonym_im_feld")
    else
      var media := if action == Post then checks.parseMedia(Get(fields, "medien")) else Ok([]);
      if media.Err? then Err(media.error) else
        var poll := if action == Post then checks.parsePoll(Get(fields, "umfrage")) else Ok(None);
        if poll.Err? then Err(poll.error) else
          var entry := Entry(Get(fields, "post_text"), media.value, poll.value,
                             Get(fields, "post_urn"), Get(fields, "kommentar_text"));
          if action == Post then
            if entry.postUrn.Some? then Err("bereits_veroeffentlicht")
            else if entry.postText == None then Err("post_text_fehlt")
            else Ok(entry)
          else if entry.postUrn == None then Err("post_urn_fehlt")
          else if !checks.postUrn(entry.postUrn.value) then Err("post_urn_ungueltig")
          else if action == Edit && entry.postText == None then Err("post_text_fehlt")
          else if action == Comment && entry.commentText == None then Err("kommentar_text_fehlt")
          else if action == Comment && checks.mentionsUrn(entry.commentText.value) then Err("kommentar_erwaehnung")
          else Ok(entry)
  }

  /** No known field is anything but a text, and no relevant one carries a pseudonym mark. */
  predicate Sound(fields: map<string, Field>, action: Action) {
    && (forall name | name in FIELDS && name in fields :: fields[name].Text?)
    && (forall name | name in Relevant(action) && name in fields && fields[name].Text? :: !Pseudonymous(fields[name].text))
  }

  /** What an action needs of a record, and what it forbids. */
  predicate Fit(fields: map<string, Field>, action: Action, checks: FieldChecks) {
    var text, urn, comment := Get(fields, "post_text"), Get(fields, "post_urn"), Get(fields, "kommentar_text");
    match action
    case Post =>
      && checks.parseMedia(Get(fields, "medien")).Ok? && checks.parsePoll(Get(fields, "umfrage")).Ok?
      && text.Some? && urn == None
    case Edit => urn.Some? && checks.postUrn(urn.value) && text.Some?
    case Delete => urn.Some? && checks.postUrn(urn.value)
    case Comment => urn.Some? && checks.postUrn(urn.value) && comment.Some? && !checks.mentionsUrn(comment.value)
  }

  /** Exactly which records are accepted, and with which entry: the texts as they are, and for a post what the media and
      the poll are read as. */
  lemma EntryIsExact(fields: map<string, Field>, action: Action, checks: FieldChecks)
    ensures EntryFromRecord(fields, action, checks).Ok? <==> Sound(fields, action) && Fit(fields, action, checks)
    ensures EntryFromRecord(fields, action, checks).Ok? ==>
              var e := EntryFromRecord(fields, action, checks).value;
              && e.postText == Get(fields, "post_text") && e.postUrn == Get(fields, "post_urn")
              && e.commentText == Get(fields, "kommentar_text")
              && (action != Post ==> e.media == [] && e.poll == None)
              && (action == Post ==> checks.parseMedia(Get(fields, "medien")) == Ok(e.media)
                                     && checks.parsePoll(Get(fields, "umfrage")) == Ok(e.poll))
  {
    hide Pseudonymous, Get;
    if exists name | name in FIELDS :: name in fields && fields[name].Other? {
      assert !Sound(fields, action);
    } else if exists name | name in Relevant(action) :: name in fields && fields[name].Text? && Pseudonymous(fields[name].text) {
      assert !Sound(fields, action);
    } else {
      assert Sound(fields, action);
    }
  }

  /** A field that is there and is not a text, and a text with a pseudonym mark. */
  predicate OddAt(fields: map<string, Field>, name: string) {
    name in fields && fields[name].Other?
  }

  predicate MarkedAt(fields: map<string, Field>, name: string) {
    name in fields && fields[name].Text? && ('‹' in fields[name].text || '›' in fields[name].text)
  }

  /** Why a record is refused before its texts are looked at: a known field that is no text, whatever the action, or a
      pseudonym mark in a field that the action would use. */
  lemma RefusedFirst(fields: map<string, Field>, action: Action, checks: FieldChecks)
    ensures var odd := || OddAt(fields, "post_text") || OddAt(fields, "medien") || OddAt(fields, "umfrage")
                       || OddAt(fields, "post_urn") || OddAt(fields, "kommentar_text");
            var marked := match action
                          case Post => MarkedAt(fields, "post_text") || MarkedAt(fields, "medien") || MarkedAt(fields, "umfrage")
                          case Edit => MarkedAt(fields, "post_urn") || MarkedAt(fields, "post_text")
                          case Delete => MarkedAt(fields, "post_urn")
                          case Comment => MarkedAt(fields, "post_urn") || MarkedAt(fields, "kommentar_text");
            && (odd ==> EntryFromRecord(fields, action, checks) == Err("eintrag_ungueltig"))
            && (!odd && marked ==> EntryFromRecord(fields, action, checks) == Err("pseudonym_im_feld"))
            && (Sound(fields, action) <==> !odd && !marked)
  {
    hide Get;
    var f, r := FIELDS, Relevant(action);
    assert f[0] == "post_text" && f[1] == "medien" && f[2] == "umfrage" && f[3] == "post_urn" && f[4] == "kommentar_text";
    assert r[0] == if action == Post then "post_text" else "post_urn";
    assert |r| > 1 ==> r[1] in {"medien", "post_text", "kommentar_text"};
    assert |r| > 2 ==> r[2] == "umfrage";
    assert forall name | name in r && name in fields && fields[name].Text? ::
        Pseudonymous(fields[name].text) <==> MarkedAt(fields, name);
  }

  /** Why a sound record is refused: the first thing that the action lacks, or must not have. */
  lemma RefusedThen(fields: map<string, Field>, action: Action, checks: FieldChecks)
    requires Sound(fields, action)
    ensures var r := EntryFromRecord(fields, action, checks);
            var text, urn, comment := Get(fields, "post_text"), Get(fields, "post_urn"), Get(fields, "kommentar_text");
            && (action == Post && checks.parseMedia(Get(fields, "medien")).Ok? && checks.parsePoll(Get(fields, "umfrage")).Ok? ==>
                  && (urn.Some? ==> r == Err("bereits_veroeffentlicht"))
                  && (urn == None && text == None ==> r == Err("post_text_fehlt")))
            && (action != Post && urn == None ==> r == Err("post_urn_fehlt"))
            && (action != Post && urn.Some? && !checks.postUrn(urn.value) ==> r == Err("post_urn_ungueltig"))
            && (action != Post && urn.Some? && checks.postUrn(urn.value) ==>
                  && (action == Edit && text == None ==> r == Err("post_text_fehlt"))
                  && (action == Comment && comment == None ==> r == Err("kommentar_text_fehlt"))
                  && (action == Comment && comment.Some? && checks.mentionsUrn(comment.value) ==> r == Err("kommentar_erwaehnung")))
  {
    hide Get, Pseudonymous;
  }

  // ----- media ---------------------------------------------------------------------------

  datatype Kind = Picture | Document | Video

  /** The one private copy of a file. */
  datatype Copy = Copy(name: string, data: seq<Byte>)

  function Lower(c: char): char {
    if 'A' <= c <= 'Z' then c - 'A' + 'a' else c
  }

  function LowerText(s: string): string {
    seq(|s|, i requires 0 <= i < |s| => Lower(s[i]))
  }

  function KindOf(name: string): Option<Kind> {
    var dot := LastDot(name);
    if dot <= 0 then None
    else
      match LowerText(name[dot..])
      case ".png" => Some(Picture)
      case ".jpg" => Some(Picture)
      case ".jpeg" => Some(Picture)
      case ".gif" => Some(Picture)
      case ".pdf" => Some(Document)
      case ".mp4" => Some(Video)
      case _ => None
  }

  /** The name ends like this in any case, and is more than its ending. */
  predicate EndsIn(name: string, ending: string) {
    |name| > |ending| && LowerText(name[|name| - |ending|..]) == ending
  }

  predicate OneDot(ending: string) {
    ending != "" && ending[0] == '.' && forall i | 0 < i < |ending| :: ending[i] != '.'
  }

  lemma LowerDot(c: char)
    ensures Lower(c) == '.' <==> c == '.'
  {
  }

  lemma EndingIsAfterTheDot(name: string, ending: string)
    requires OneDot(ending)
    ensures EndsIn(name, ending) <==> LastDot(name) > 0 && LowerText(name[LastDot(name)..]) == ending
  {
    hide Lower;
    if EndsIn(name, ending) {
      EndingDot(name, ending);
    }
    if LastDot(name) > 0 && LowerText(name[LastDot(name)..]) == ending {
      assert |name[LastDot(name)..]| == |ending|;
    }
  }

  lemma EndingDot(name: string, ending: string)
    requires OneDot(ending) && EndsIn(name, ending)
    ensures LastDot(name) == |name| - |ending|
  {
    hide Lower, LastDot;
    var at := |name| - |ending|;
    var tail := name[at..];
    forall i | 0 <= i < |tail| ensures tail[i] == '.' <==> i == 0 {
      LowerDot(tail[i]);
      assert LowerText(tail)[i] == ending[i];
    }
    assert name[at] == tail[0];
    DotAfter(name, at);
    assert name[LastDot(name)] == tail[LastDot(name) - at];
  }

  /** The kind of a file is told by the ending of its name, in any case. */
  lemma KindIsTheEnding(name: string)
    ensures KindOf(name) == Some(Picture) <==>
              EndsIn(name, ".png") || EndsIn(name, ".jpg") || EndsIn(name, ".jpeg") || EndsIn(name, ".gif")
    ensures KindOf(name) == Some(Document) <==> EndsIn(name, ".pdf")
    ensures KindOf(name) == Some(Video) <==> EndsIn(name, ".mp4")
  {
    hide EndsIn, LowerText, LastDot;
    assert OneDot(".png") && OneDot(".jpg") && OneDot(".jpeg") && OneDot(".gif") && OneDot(".pdf") && OneDot(".mp4");
    EndingIsAfterTheDot(name, ".png");
    EndingIsAfterTheDot(name, ".jpg");
    EndingIsAfterTheDot(name, ".jpeg");
    EndingIsAfterTheDot(name, ".gif");
    EndingIsAfterTheDot(name, ".pdf");
    EndingIsAfterTheDot(name, ".mp4");
  }

  datatype Format = OnePicture | Pictures | OneDocument | OneVideo | PollOnly | TextOnly | Target(action: Action)

  /** `check_format`: which shape a post takes, from the media names and the poll alone. */
  function CheckFormat(action: Action, names: seq<string>, poll: Option<Poll>): Result<Format, Code> {
    if action != Post then Ok(Target(action))
    else if exists name | name in names :: KindOf(name) == None then Err("medium_name_ungueltig")
    else if poll.Some? then (if names != [] then Err("umfrage_mit_medien") else Ok(PollOnly))
    else if names == [] then Ok(TextOnly)
    else if forall name | name in names :: KindOf(name) == Some(Picture) then
      Ok(if |names| == 1 then OnePicture else Pictures)
    else if |names| == 1 && KindOf(names[0]) == Some(Document) then Ok(OneDocument)
    else if |names| == 1 && KindOf(names[0]) == Some(Video) then Ok(OneVideo)
    else Err("medien_kombination_ungueltig")
  }

  /** Which posts are possible: a text alone, a poll alone, one or more pictures, one document, or one video; everything
      else is refused, and every other action has no media to choose from. */
  lemma FormatsPossible(action: Action, names: seq<string>, poll: Option<Poll>)
    ensures action != Post ==> CheckFormat(action, names, poll) == Ok(Target(action))
    ensures action == Post ==>
              var r := CheckFormat(action, names, poll);
              && (r == Ok(TextOnly) <==> names == [] && poll == None)
              && (r == Ok(PollOnly) <==> names == [] && poll.Some?)
              && (r == Ok(OnePicture) <==> poll == None && |names| == 1 && AllOf(names, Picture))
              && (r == Ok(Pictures) <==> poll == None && |names| > 1 && AllOf(names, Picture))
              && (r == Ok(OneDocument) <==> poll == None && |names| == 1 && AllOf(names, Document))
              && (r == Ok(OneVideo) <==> poll == None && |names| == 1 && AllOf(names, Video))
              && (r.Ok? ==> !r.value.Target?)
  {
    hide KindOf;
    if names != [] {
      assert names[0] in names;
    }
    assert |names| == 1 ==> forall name | name in names :: name == names[0];
  }

  predicate AllOf(names: seq<string>, kind: Kind) {
    forall name | name in names :: KindOf(name) == Some(kind)
  }

  // ----- effects -------------------------------------------------------------------------

  datatype Medium = Medium(name: string, sha256: string)

  /** The complete provider effect an approval covers. */
  datatype Effect = Effect(action: string, media: seq<Medium>, text: string, poll: Option<Poll>, target: string)

  type Hash = seq<Byte> -> string

  function Media(copies: seq<Copy>, hash: Hash): (media: seq<Medium>)
  {
    seq(|copies|, i requires 0 <= i < |copies| => Medium(copies[i].name, hash(copies[i].data)))
  }

  function EffectOf(
      action: Action, entry: Entry, copies: seq<Copy>, organization: string, hash: Hash): Effect
    requires Usable(entry, action)
  {
    Effect(
      ActionName(action),
      if action == Post then Media(copies, hash) else [],
      if action == Comment then entry.commentText.value else if action == Delete then "" else entry.postText.value,
      if action == Post then entry.poll else None,
      if action == Post then organization else entry.postUrn.value)
  }

  /** The record has this text, and it is not empty. */
  predicate Has(fields: map<string, Field>, name: string, text: string) {
    name in fields && fields[name] == Text(text) && text != ""
  }

  /** What each action's effect holds, said of the stored record, the copies and the organization of the service; none of
      its texts carries a pseudonym mark. */
  predicate HoldsRecord(
      e: Effect, action: Action, fields: map<string, Field>, checks: FieldChecks, copies: seq<Copy>, organization: string,
      hash: Hash)
  {
    && '‹' !in e.text && '›' !in e.text && (action != Post ==> '‹' !in e.target && '›' !in e.target)
    && match action
       case Post =>
         && e.action == "posten" && e.target == organization && Has(fields, "post_text", e.text)
         && checks.parsePoll(Get(fields, "umfrage")) == Ok(e.poll)
         && |e.media| == |copies|
         && forall i | 0 <= i < |copies| :: e.media[i] == Medium(copies[i].name, hash(copies[i].data))
       case Edit =>
         && e.action == "bearbeiten" && Has(fields, "post_urn", e.target) && Has(fields, "post_text", e.text)
         && e.media == [] && e.poll == None
       case Delete =>
         e.action == "loeschen" && Has(fields, "post_urn", e.target) && e.text == "" && e.media == [] && e.poll == None
       case Comment =>
         && e.action == "kommentar" && Has(fields, "post_urn", e.target) && Has(fields, "kommentar_text", e.text)
         && e.media == [] && e.poll == None
  }

  lemma GetIsHas(fields: map<string, Field>, name: string, text: string)
    ensures Get(fields, name) == Some(text) <==> Has(fields, name, text)
  {
  }

  lemma CleanField(fields: map<string, Field>, action: Action, name: string, text: string)
    requires Sound(fields, action) && name in Relevant(action) && Has(fields, name, text)
    ensures '‹' !in text && '›' !in text
  {
  }

  /** The effect is the record's. */
  lemma EffectIsTheRecord(
      fields: map<string, Field>, action: Action, checks: FieldChecks, copies: seq<Copy>, organization: string, hash: Hash)
    requires EntryFromRecord(fields, action, checks).Ok?
    ensures var entry := EntryFromRecord(fields, action, checks).value;
            HoldsRecord(EffectOf(action, entry, copies, organization, hash), action, fields, checks, copies, organization, hash)
  {
    EntryIsExact(fields, action, checks);
    hide EntryFromRecord, Fit, Get, Has;
    var e := EffectOf(action, EntryFromRecord(fields, action, checks).value, copies, organization, hash);
    GetIsHas(fields, "post_text", e.text);
    GetIsHas(fields, "kommentar_text", e.text);
    GetIsHas(fields, "post_urn", e.target);
    hide Sound;
    assert "post_text" == Relevant(Post)[0] && "post_urn" == Relevant(Edit)[0] && "post_text" == Relevant(Edit)[1];
    assert "post_urn" == Relevant(Delete)[0] && "post_urn" == Relevant(Comment)[0] && "kommentar_text" == Relevant(Comment)[1];
    if action == Post || action == Edit {
      CleanField(fields, action, "post_text", e.text);
    }
    if action == Comment {
      CleanField(fields, action, "kommentar_text", e.text);
    }
    if action != Post {
      CleanField(fields, action, "post_urn", e.target);
    }
  }

  // ----- the canonical encoding ----------------------------------------------------------

  /** A poll duration as it arrives: JSON knows booleans and fractions too. */
  datatype Duration = Days(days: int) | NotAnInteger

  datatype RawPoll = RawPoll(answers: Option<seq<string>>, duration: Option<Duration>, question: Option<string>)

  /** An effect as the encoder receives it, with the parts that may be absent. */
  datatype RawEffect = RawEffect(
    action: string, media: Option<seq<Medium>>, text: string, poll: Option<RawPoll>, target: string)

  function GetOr<T>(value: Option<T>, default: T): T {
    if value.Some? then value.value else default
  }

  /** What an absent part stands for; `None` for a duration that is not an integer. */
  function Meaning(raw: RawEffect): Option<Effect> {
    if raw.poll.Some? && GetOr(raw.poll.value.duration, Days(0)).NotAnInteger? then None
    else
      Some(Effect(raw.action, GetOr(raw.media, []), raw.text,
                  match raw.poll
                  case None => None
                  case Some(poll) => Some(Poll(GetOr(poll.question, ""), GetOr(poll.answers, []),
                                               GetOr(poll.duration, Days(0)).days)),
                  raw.target))
  }

  function Raw(effect: Effect): RawEffect {
    RawEffect(effect.action, Some(effect.media), effect.text,
              match effect.poll
              case None => None
              case Some(poll) => Some(RawPoll(Some(poll.answers), Some(Days(poll.duration)), Some(poll.question))),
              effect.target)
  }

  /** A member of an object: its name with the punctuation around it, its value, and what follows. */
  function Member(name: string, value: string, rest: string): string {
    name + (value + rest)
  }

  function WriteMedium(m: Medium): (s: string)
    ensures s != "" && s[0] == '{'
  {
    Member("{\"name\":", Quote(m.name), Member(",\"sha256\":", Quote(m.sha256), "}"))
  }

  function WritePoll(poll: Option<RawPoll>): string
    requires poll.Some? ==> GetOr(poll.value.duration, Days(0)).Days?
  {
    match poll
    case None => "null"
    case Some(p) =>
      Member("{\"antworten\":", List(Quote, GetOr(p.answers, [])),
      Member(",\"dauer\":", Decimal(GetOr(p.duration, Days(0)).days),
      Member(",\"frage\":", Quote(GetOr(p.question, "")), "}")))
  }

  function CanonicalText(raw: RawEffect): string
    requires raw.poll.Some? ==> GetOr(raw.poll.value.duration, Days(0)).Days?
  {
    Member("{\"aktion\":", Quote(raw.action),
    Member(",\"medien\":", List(WriteMedium, GetOr(raw.media, [])), CanonicalEnd(raw)))
  }

  function CanonicalEnd(raw: RawEffect): string
    requires raw.poll.Some? ==> GetOr(raw.poll.value.duration, Days(0)).Days?
  {
    Member(",\"text\":", Quote(raw.text),
    Member(",\"umfrage\":", WritePoll(raw.poll),
    Member(",\"ziel_urn\":", Quote(raw.target), "}")))
  }

  function Canonical(raw: RawEffect): Result<seq<Byte>, Code> {
    if raw.poll.Some? && GetOr(raw.poll.value.duration, Days(0)).NotAnInteger? then Err("invalid_duration")
    else Ok(Encode(CanonicalText(raw)))
  }

  /** The frozen encoding, flat: the members in their order, without blanks. */
  lemma CanonicalIsFlat(action: string, media: seq<Medium>, text: string, poll: Option<Poll>, target: string)
    ensures var raw := Raw(Effect(action, media, text, poll, target));
            CanonicalText(raw)
            == "{\"aktion\":" + Quote(action) + ",\"medien\":" + List(WriteMedium, media) + ",\"text\":" + Quote(text)
               + ",\"umfrage\":" + WritePoll(raw.poll) + ",\"ziel_urn\":" + Quote(target) + "}"
  {
    hide Quote, List, WriteMedium, WritePoll;
  }

  lemma PollIsFlat(answers: seq<string>, days: int, question: string)
    ensures WritePoll(Some(RawPoll(Some(answers), Some(Days(days)), Some(question))))
         == "{\"antworten\":" + List(Quote, answers) + ",\"dauer\":" + Decimal(days) + ",\"frage\":" + Quote(question) + "}"
    ensures WritePoll(None) == "null"
  {
    hide Quote, List, Decimal;
  }

  lemma MediumIsFlat(name: string, sha256: string)
    ensures WriteMedium(Medium(name, sha256)) == "{\"name\":" + Quote(name) + ",\"sha256\":" + Quote(sha256) + "}"
  {
    hide Quote;
  }

  lemma ListsAreFlat<T>(write: T -> string, a: T, b: T)
    ensures List(write, []) == "[]"
    ensures List(write, [a, b]) == "[" + write(a) + "," + write(b) + "]"
  {
    assert [a, b][1..] == [b] && [b][1..] == [];
    assert Elements(write, [b], false) == "," + write(b) + "]";
    assert Elements(write, [a, b], true) == write(a) + ("," + write(b) + "]");
  }

  // ----- reading the encoding back -------------------------------------------------------

  /** A literal and then a value. */
  function After<T>(literal: string, read: string -> Option<(T, string)>, s: string): Option<(T, string)> {
    match Skip(literal, s)
    case None => None
    case Some(rest) => read(rest)
  }

  function ReadMedium(s: string): Option<(Medium, string)> {
    match After("{\"name\":", ReadString, s)
    case None => None
    case Some((name, s1)) =>
      match After(",\"sha256\":", ReadString, s1)
      case None => None
      case Some((sha256, s2)) =>
        match Skip("}", s2)
        case None => None
        case Some(rest) => Some((Medium(name, sha256), rest))
  }

  function ReadPoll(s: string): Option<(Option<Poll>, string)> {
    match Skip("null", s)
    case Some(rest) => Some((None, rest))
    case None =>
      match After("{\"antworten\":", (t: string) => ReadList(ReadString, t), s)
      case None => None
      case Some((answers, s1)) =>
        match After(",\"dauer\":", ReadInt, s1)
        case None => None
        case Some((duration, s2)) =>
          match After(",\"frage\":", ReadString, s2)
          case None => None
          case Some((question, s3)) =>
            match Skip("}", s3)
            case None => None
            case Some(rest) => Some((Some(Poll(question, answers, duration)), rest))
  }

  function ReadEffect(s: string): Option<(Effect, string)> {
    match After("{\"aktion\":", ReadString, s)
    case None => None
    case Some((action, s1)) =>
      match After(",\"medien\":", (t: string) => ReadList(ReadMedium, t), s1)
      case None => None
      case Some((media, s2)) => ReadEffectEnd(action, media, s2)
  }

  function ReadEffectEnd(action: string, media: seq<Medium>, s2: string): Option<(Effect, string)> {
    match After(",\"text\":", ReadString, s2)
    case None => None
    case Some((text, s3)) =>
      match After(",\"umfrage\":", ReadPoll, s3)
      case None => None
      case Some((poll, s4)) =>
        match After(",\"ziel_urn\":", ReadString, s4)
        case None => None
        case Some((target, s5)) =>
          match Skip("}", s5)
          case None => None
          case Some(rest) => Some((Effect(action, media, text, poll, target), rest))
  }

  function ParseCanonical(bytes: seq<Byte>): Option<Effect> {
    match Decode(bytes)
    case None => None
    case Some(s) =>
      match ReadEffect(s)
      case Some((effect, "")) => Some(effect)
      case _ => None
  }

  lemma ReadMember<T>(name: string, read: string -> Option<(T, string)>, written: string, value: T, rest: string)
    requires read(written + rest) == Some((value, rest))
    ensures After(name, read, Member(name, written, rest)) == Some((value, rest))
  {
    SkipWritten(name, written + rest);
  }

  lemma MemberThen(name: string, value: string, end: string, rest: string)
    ensures Member(name, value, end) + rest == Member(name, value, end + rest)
  {
  }

  lemma ReadWrittenMedium(m: Medium, rest: string)
    ensures ReadMedium(WriteMedium(m) + rest) == Some((m, rest))
  {
    var s2 := "}" + rest;
    var s1 := Member(",\"sha256\":", Quote(m.sha256), s2);
    MemberThen(",\"sha256\":", Quote(m.sha256), "}", rest);
    MemberThen("{\"name\":", Quote(m.name), Member(",\"sha256\":", Quote(m.sha256), "}"), rest);
    ReadQuoted(m.name, s1);
    ReadMember("{\"name\":", ReadString, Quote(m.name), m.name, s1);
    ReadQuoted(m.sha256, s2);
    ReadMember(",\"sha256\":", ReadString, Quote(m.sha256), m.sha256, s2);
    SkipWritten("}", rest);
  }

  lemma StringsInverse()
    ensures Inverse(Quote, ReadString)
  {
    hide ReadString;
    forall x: string, rest: string ensures ReadsBack(Quote, ReadString, x, rest) {
      ReadQuoted(x, rest);
    }
  }

  lemma MediaInverse()
    ensures Inverse(WriteMedium, ReadMedium)
  {
    forall x: Medium, rest: string ensures ReadsBack(WriteMedium, ReadMedium, x, rest)
    {
      ReadWrittenMedium(x, rest);
    }
    hide WriteMedium, ReadMedium;
  }

  lemma ReadWrittenPoll(raw: RawPoll, rest: string)
    requires GetOr(raw.duration, Days(0)).Days?
    ensures ReadPoll(WritePoll(Some(raw)) + rest)
         == Some((Some(Poll(GetOr(raw.question, ""), GetOr(raw.answers, []), GetOr(raw.duration, Days(0)).days)), rest))
  {
    var answers, days, question :=
      GetOr(raw.answers, []), GetOr(raw.duration, Days(0)).days, GetOr(raw.question, "");
    hide Quote, List, Decimal, ReadString, ReadInt, ReadList;
    var s3 := "}" + rest;
    var s2 := Member(",\"frage\":", Quote(question), s3);
    var s1 := Member(",\"dauer\":", Decimal(days), s2);
    PollThen(answers, days, question, rest);
    StringsInverse();
    ReadWrittenList(Quote, ReadString, answers, s1);
    ReadMember("{\"antworten\":", (t: string) => ReadList(ReadString, t), List(Quote, answers), answers, s1);
    ReadDecimal(days, s2);
    ReadMember(",\"dauer\":", ReadInt, Decimal(days), days, s2);
    ReadQuoted(question, s3);
    ReadMember(",\"frage\":", ReadString, Quote(question), question, s3);
    SkipWritten("}", rest);
  }

  lemma PollThen(answers: seq<string>, days: int, question: string, rest: string)
    ensures Member("{\"antworten\":", List(Quote, answers), Member(",\"dauer\":", Decimal(days),
              Member(",\"frage\":", Quote(question), "}"))) + rest
         == Member("{\"antworten\":", List(Quote, answers), Member(",\"dauer\":", Decimal(days),
              Member(",\"frage\":", Quote(question), "}" + rest)))
  {
    hide Member, Quote, List, Decimal;
    MemberThen(",\"frage\":", Quote(question), "}", rest);
    MemberThen(",\"dauer\":", Decimal(days), Member(",\"frage\":", Quote(question), "}"), rest);
    MemberThen("{\"antworten\":", List(Quote, answers),
               Member(",\"dauer\":", Decimal(days), Member(",\"frage\":", Quote(question), "}")), rest);
  }

  lemma ReadWrittenOptionalPoll(raw: RawEffect, rest: string)
    requires Meaning(raw).Some?
    ensures ReadPoll(WritePoll(raw.poll) + rest) == Some((Meaning(raw).value.poll, rest))
  {
    match raw.poll
    case None => SkipWritten("null", rest);
    case Some(poll) => ReadWrittenPoll(poll, rest);
  }

  lemma ReadCanonicalEnd(raw: RawEffect)
    requires Meaning(raw).Some?
    ensures ReadEffectEnd(raw.action, Meaning(raw).value.media, CanonicalEnd(raw)) == Some((Meaning(raw).value, ""))
  {
    var s5 := "}";
    var s4 := Member(",\"ziel_urn\":", Quote(raw.target), s5);
    var s3 := Member(",\"umfrage\":", WritePoll(raw.poll), s4);
    ReadQuoted(raw.text, s3);
    ReadMember(",\"text\":", ReadString, Quote(raw.text), raw.text, s3);
    ReadWrittenOptionalPoll(raw, s4);
    ReadMember(",\"umfrage\":", ReadPoll, WritePoll(raw.poll), Meaning(raw).value.poll, s4);
    ReadQuoted(raw.target, s5);
    ReadMember(",\"ziel_urn\":", ReadString, Quote(raw.target), raw.target, s5);
    SkipWritten("}", "");
    assert s5 == "}" + "";
  }

  lemma ReadCanonicalText(raw: RawEffect)
    requires Meaning(raw).Some?
    ensures ReadEffect(CanonicalText(raw)) == Some((Meaning(raw).value, ""))
  {
    var media, s2 := GetOr(raw.media, []), CanonicalEnd(raw);
    var s1 := Member(",\"medien\":", List(WriteMedium, media), s2);
    ReadQuoted(raw.action, s1);
    ReadMember("{\"aktion\":", ReadString, Quote(raw.action), raw.action, s1);
    MediaInverse();
    ReadWrittenList(WriteMedium, ReadMedium, media, s2);
    ReadMember(",\"medien\":", (t: string) => ReadList(ReadMedium, t), List(WriteMedium, media), media, s2);
    ReadCanonicalEnd(raw);
  }

  /** A reader of the bytes recovers exactly what the effect means. */
  lemma CanonicalRecovers(raw: RawEffect)
    requires Canonical(raw).Ok?
    ensures ParseCanonical(Canonical(raw).value) == Meaning(raw)
  {
    RoundTrip(CanonicalText(raw));
    ReadCanonicalText(raw);
  }

  /** Two effects have the same bytes exactly when they mean the same. */
  lemma CanonicalInjective(a: RawEffect, b: RawEffect)
    requires Canonical(a).Ok? && Canonical(b).Ok?
    ensures Canonical(a) == Canonical(b) <==> Meaning(a) == Meaning(b)
  {
    CanonicalRecovers(a);
    CanonicalRecovers(b);
    if Meaning(a) == Meaning(b) {
      SameMeaningSameText(a, b);
    }
  }

  lemma SameMeaningSameText(a: RawEffect, b: RawEffect)
    requires Meaning(a).Some? && Meaning(a) == Meaning(b)
    ensures CanonicalText(a) == CanonicalText(b)
  {
    assert WritePoll(a.poll) == WritePoll(b.poll);
  }

  // ----- the approval hash ---------------------------------------------------------------

  const HASH_PREFIX: seq<Byte> := [102, 114, 101, 105, 103, 97, 98, 101, 58, 118, 50, 10] // "freigabe:v2\n"
  const HASH_LABEL: string := "freigabe:v2:sha256:"

  /** The canonical bytes of a complete effect. */
  function Bytes(effect: Effect): seq<Byte> {
    Canonical(Raw(effect)).value
  }

  function ApprovalHash(effect: Effect, hash: Hash): string {
    Seal(HASH_LABEL, HASH_PREFIX, Bytes(effect), hash)
  }

  function Seal(tag: string, prefix: seq<Byte>, bytes: seq<Byte>, hash: Hash): string {
    tag + hash(prefix + bytes)
  }

  /** The prefix is a line of ASCII. */
  lemma PrefixIsALine(i: nat)
    requires i < 12
    ensures |HASH_PREFIX| == 12 == |"freigabe:v2\n"| && HASH_PREFIX[i] as int == "freigabe:v2\n"[i] as int
  {
  }

  /** The frozen form of the seal: a readable label, and the digest of the prefix line and the canonical bytes. */
  lemma SealIsFrozen(effect: Effect, hash: Hash)
    ensures ApprovalHash(effect, hash) == "freigabe:v2:sha256:" + hash(HASH_PREFIX + Encode(CanonicalText(Raw(effect))))
  {
    hide Encode, CanonicalText;
  }

  /** Approving one hash approves one effect, unless the hash function itself collides. */
  lemma ApprovalIsSpecific(a: Effect, b: Effect, hash: Hash)
    requires ApprovalHash(a, hash) == ApprovalHash(b, hash)
    ensures a == b || exists x, y :: x != y && hash(x) == hash(y)
  {
    SpecificFor(HASH_LABEL, HASH_PREFIX, Bytes(a), Bytes(b), hash);
    BytesInjective(a, b);
  }

  lemma BytesInjective(a: Effect, b: Effect)
    ensures Bytes(a) == Bytes(b) ==> a == b
  {
    assert Meaning(Raw(a)) == Some(a) && Meaning(Raw(b)) == Some(b);
    CanonicalInjective(Raw(a), Raw(b));
  }

  lemma SpecificFor(tag: string, prefix: seq<Byte>, x: seq<Byte>, y: seq<Byte>, hash: Hash)
    requires Seal(tag, prefix, x, hash) == Seal(tag, prefix, y, hash)
    ensures x == y || exists p, q :: p != q && hash(p) == hash(q)
  {
    SameSuffix(tag, hash(prefix + x), hash(prefix + y));
    if prefix + x == prefix + y {
      SameSuffix(prefix, x, y);
    }
  }

  lemma SameSuffix<T>(prefix: seq<T>, a: seq<T>, b: seq<T>)
    requires prefix + a == prefix + b
    ensures a == b
  {
    assert a == (prefix + a)[|prefix|..] == (prefix + b)[|prefix|..] == b;
  }
}
