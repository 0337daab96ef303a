/** The one token state of the service: what an answer of the token endpoint may change, and when the
    endpoint is asked at all.  Times are seconds. */
module Oauth {
  import opened Wrappers
  import opened Redaktion

  const DAY_SECONDS: int := 86400
  const ACCESS_DAYS: int := 60
  const REFRESH_DAYS: int := 365
  const OVERSHOOT_TOLERANCE_SECONDS: int := 86400
  const EARLY_SECONDS: int := 300
  const SHAPE_ERROR: Code := "unexpected_source_shape"
  const EXPIRED: Code := "token_abgelaufen"

  const GRANT_SCOPES: set<string> :=
    {"rw_organization_admin", "r_organization_social", "w_organization_social", "w_organization_social_feed"}

  // ----- scopes ----------------------------------------------------------------------------

  /** The words of a scope text; `separates` is the source's pattern of commas and white space. */
  function ScopeSet(text: string, separates: char -> bool): set<string> {
    Words(text, "", separates)
  }

  function Words(text: string, word: string, separates: char -> bool): set<string> {
    if text == "" then WordOf(word)
    else if separates(text[0]) then WordOf(word) + Words(text[1..], "", separates)
    else Words(text[1..], word + [text[0]], separates)
  }

  function WordOf(word: string): set<string> {
    if word == "" then {} else {word}
  }

  lemma {:induction false} WordsApart(a: string, b: string, word: string, separator: char, separates: char -> bool)
    requires separates(separator)
    ensures Words(a + [separator] + b, word, separates) == Words(a, word, separates) + Words(b, "", separates)
    decreases |a|
  {
    var text := a + [separator] + b;
    if a == "" {
      assert text[0] == separator && text[1..] == b;
    } else {
      assert text[0] == a[0] && text[1..] == a[1..] + [separator] + b;
      WordsApart(a[1..], b, if separates(a[0]) then "" else word + [a[0]], separator, separates);
    }
  }

  lemma {:induction false} WordWhole(text: string, word: string, separates: char -> bool)
    requires forall c | c in text :: !separates(c)
    ensures Words(text, word, separates) == WordOf(word + text)
    decreases |text|
  {
    if text == "" {
      assert word + text == word;
    } else {
      WordWhole(text[1..], word + [text[0]], separates);
      assert word + [text[0]] + text[1..] == word + text;
    }
  }

  /** These two facts fix the meaning of a scope text: separators only separate, whichever and however many, and a
      text without one is a single scope. */
  lemma ScopesAreTheWords(a: string, b: string, separator: char, separates: char -> bool)
    requires separates(separator)
    ensures ScopeSet(a + [separator] + b, separates) == ScopeSet(a, separates) + ScopeSet(b, separates)
    ensures (forall c | c in a :: !separates(c)) ==> ScopeSet(a, separates) == if a == "" then {} else {a}
  {
    WordsApart(a, b, "", separator, separates);
    if forall c | c in a :: !separates(c) {
      WordWhole(a, "", separates);
      assert "" + a == a;
    }
  }

  // ----- answers of the token endpoint -----------------------------------------------------

  /** A field of the answer: a number is a true integer, anything odd is `Odd`. */
  datatype Value = Missing | Word(text: string) | Number(number: int) | Odd

  datatype Raw =
    | NotAnObject
    | Raw(scope: Value, tokenType: Value, expiresIn: Value, accessToken: Value,
          refreshToken: Value, refreshExpiresIn: Value)

  predicate IsSecret(value: Value) {
    value.Word? && 1 <= |value.text| <= 8192 && forall c | c in value.text :: '!' <= c <= '~'
  }

  /** `lifetime`: a small overshoot is capped, a large one is refused. */
  function Lifetime(value: Value, days: int): (seconds: Option<int>)
    requires days > 0
    ensures seconds.Some? ==> 0 < seconds.value <= days * 86400
    ensures seconds.Some? <==> value.Number? && 0 < value.number <= days * 86400 + 86400
    ensures seconds.Some? ==> seconds.value == value.number || (seconds.value == days * 86400 < value.number)
  {
    var cap := days * DAY_SECONDS;
    if !value.Number? || !(0 < value.number <= cap + OVERSHOOT_TOLERANCE_SECONDS) then None
    else Some(if value.number < cap then value.number else cap)
  }

  datatype Refresh = Refresh(token: string, expiry: int)

  datatype Identity = Identity(accessToken: string, accessExpiry: int, refresh: Option<Refresh>)

  datatype Update = Update(accessToken: string, accessExpiry: int, refresh: Option<Refresh>)

  predicate GoodHead(raw: Raw, scopeRequired: bool, separates: char -> bool) {
    && raw.Raw?
    && (scopeRequired ==> raw.scope != Missing)
    && (raw.scope != Missing ==> raw.scope.Word? && ScopeSet(raw.scope.text, separates) == GRANT_SCOPES)
    && (raw.tokenType != Missing ==> raw.tokenType.Word? && LowerText(raw.tokenType.text) == "bearer")
  }

  /** `token_result`: the update an answer allows, relative to the time before the exchange. */
  function TokenResult(
      raw: Raw, now: int, original: Option<int>, scopeRequired: bool, separates: char -> bool): (u: Option<Update>)
    ensures u.Some? ==> now < u.value.accessExpiry <= now + 60 * 86400
    ensures u.Some? ==> raw.Raw? && raw.accessToken == Word(u.value.accessToken)
    ensures u.Some? ==> (u.value.refresh == None <==> raw.refreshToken == Missing)
    ensures u.Some? && u.value.refresh.Some? ==> raw.refreshToken == Word(u.value.refresh.value.token)
    ensures u.Some? && u.value.refresh.Some? ==> u.value.refresh.value.expiry <= now + 365 * 86400
    ensures u.Some? && u.value.refresh.Some? && original.Some? ==> u.value.refresh.value.expiry <= original.value
    ensures u.Some? && (scopeRequired || raw.scope != Missing) ==>
              && raw.Raw? && raw.scope.Word?
              && ScopeSet(raw.scope.text, separates)
                 == {"rw_organization_admin", "r_organization_social", "w_organization_social", "w_organization_social_feed"}
  {
    if !GoodHead(raw, scopeRequired, separates) then None
    else
      var seconds := Lifetime(raw.expiresIn, ACCESS_DAYS);
      if seconds == None || !IsSecret(raw.accessToken) then None
      else if raw.refreshToken == Missing then Some(Update(raw.accessToken.text, now + seconds.value, None))
      else
        var rest := Lifetime(raw.refreshExpiresIn, REFRESH_DAYS);
        if rest == None || !IsSecret(raw.refreshToken) then None
        else
          var expiry := now + rest.value;
          var capped := if original.Some? && original.value < expiry then original.value else expiry;
          Some(Update(raw.accessToken.text, now + seconds.value, Some(Refresh(raw.refreshToken.text, capped))))
  }

  // ----- the token state -------------------------------------------------------------------

  /** One request for the token: the clock, and what the endpoint would answer if asked. */
  datatype Visit = Visit(now: int, endpoint: Result<Raw, Code>)

  predicate Exchanges(data: Identity, now: int) {
    data.refresh.Some? && data.accessExpiry - EARLY_SECONDS <= now < data.refresh.value.expiry
  }

  /** What an exchange leaves behind: new fields replace old ones, absent ones stay. */
  function Merged(data: Identity, update: Update): Identity {
    Identity(update.accessToken, update.accessExpiry, if update.refresh.Some? then update.refresh else data.refresh)
  }

  /** The token state after a visit, and the visit's answer. */
  function Visited(data: Identity, visit: Visit, separates: char -> bool): (Identity, Result<string, Code>) {
    if !Exchanges(data, visit.now) then
      (data, if data.accessExpiry <= visit.now then Err(EXPIRED) else Ok(data.accessToken))
    else if visit.endpoint.Err? then (data, Err(visit.endpoint.error))
    else
      match TokenResult(visit.endpoint.value, visit.now, Some(data.refresh.value.expiry), false, separates)
      case None => (data, Err(SHAPE_ERROR))
      case Some(update) => (Merged(data, update), Ok(update.accessToken))
  }

  /** The source's object: `access` runs under its lock, so the visits of all threads are one sequence. */
  class Tokens {
    var data: Identity

    constructor (data: Identity)
      ensures this.data == data
    {
      this.data := data;
    }

    /** `sent` is the refresh token of the exchange, if there was one. */
    method Access(visit: Visit, separates: char -> bool) returns (r: Result<string, Code>, sent: Option<string>)
      modifies this
      ensures (data, r) == Visited(old(data), visit, separates)
      ensures sent == if Exchanges(old(data), visit.now) then Some(old(data).refresh.value.token) else None
    {
      var now, expiry, refresh := visit.now, data.accessExpiry, data.refresh;
      sent := None;
      if refresh.Some? && now >= expiry - EARLY_SECONDS && now < refresh.value.expiry {
        sent := Some(refresh.value.token);
        if visit.endpoint.Err? {
          return Err(visit.endpoint.error), sent;
        }
        var update := TokenResult(visit.endpoint.value, now, Some(refresh.value.expiry), false, separates);
        if update == None {
          return Err(SHAPE_ERROR), sent;
        }
        data := Merged(data, update.value);
        expiry := data.accessExpiry;
      }
      if now >= expiry {
        return Err(EXPIRED), sent;
      }
      return Ok(data.accessToken), sent;
    }
  }

  // ----- histories -------------------------------------------------------------------------

  function StateAfter(start: Identity, visits: seq<Visit>, separates: char -> bool): Identity {
    if visits == [] then start
    else Visited(StateAfter(start, visits[..|visits| - 1], separates), visits[|visits| - 1], separates).0
  }

  function AnswerAt(start: Identity, visits: seq<Visit>, i: nat, separates: char -> bool): Result<string, Code>
    requires i < |visits|
  {
    Visited(StateAfter(start, visits[..i], separates), visits[i], separates).1
  }

  /** The refresh token of the newest accepted answer that brought one, or the one of the start: what a reader of
      the endpoint's answers would call the newest, without looking at the state. */
  function Newest(start: Identity, visits: seq<Visit>, separates: char -> bool): Option<string> {
    if visits == [] then (if start.refresh.Some? then Some(start.refresh.value.token) else None)
    else
      var before, last := visits[..|visits| - 1], visits[|visits| - 1];
      if Exchanges(StateAfter(start, before, separates), last.now) && last.endpoint.Ok?
         && AnswerAt(start, visits, |before|, separates).Ok? && last.endpoint.value.refreshToken.Word? then
        Some(last.endpoint.value.refreshToken.text)
      else Newest(start, before, separates)
  }

  lemma {:induction false} NewestIsStored(start: Identity, visits: seq<Visit>, separates: char -> bool)
    ensures var data := StateAfter(start, visits, separates);
            Newest(start, visits, separates) == if data.refresh.Some? then Some(data.refresh.value.token) else None
  {
    hide ScopeSet, LowerText;
    if visits != [] {
      NewestIsStored(start, visits[..|visits| - 1], separates);
    }
  }

  /** Whoever gets a token gets one that had not expired when its request was checked, and it is the stored one. */
  lemma ReturnedIsFresh(start: Identity, visits: seq<Visit>, i: nat, separates: char -> bool)
    requires i < |visits| && AnswerAt(start, visits, i, separates).Ok?
    ensures var data := StateAfter(start, visits[..i + 1], separates);
            AnswerAt(start, visits, i, separates) == Ok(data.accessToken) && visits[i].now < data.accessExpiry
  {
    hide ScopeSet, LowerText;
    assert visits[..i + 1][..i] == visits[..i];
  }

  /** Every exchange uses the newest refresh token, and happens only in the last five minutes of the access token
      or after, and before the refresh deadline. */
  lemma ExchangeIsDue(start: Identity, visits: seq<Visit>, i: nat, separates: char -> bool)
    requires i < |visits| && Exchanges(StateAfter(start, visits[..i], separates), visits[i].now)
    ensures var data := StateAfter(start, visits[..i], separates);
            && Newest(start, visits[..i], separates) == Some(data.refresh.value.token)
            && data.accessExpiry - visits[i].now <= 300 && visits[i].now < data.refresh.value.expiry
  {
    NewestIsStored(start, visits[..i], separates);
    hide Newest, StateAfter;
  }

  /** The deadline of the consent is never moved later, and a consent is never gained. */
  predicate NotLater(before: Identity, after: Identity) {
    && (after.refresh.Some? <==> before.refresh.Some?)
    && (before.refresh.Some? ==> after.refresh.value.expiry <= before.refresh.value.expiry)
  }

  lemma {:induction false} DeadlineNeverLater(start: Identity, visits: seq<Visit>, i: nat, separates: char -> bool)
    requires i <= |visits|
    ensures NotLater(StateAfter(start, visits[..i], separates), StateAfter(start, visits, separates))
    decreases |visits|
  {
    hide ScopeSet, LowerText;
    if i < |visits| {
      DeadlineNeverLater(start, visits[..|visits| - 1], i, separates);
      assert visits[..|visits| - 1][..i] == visits[..i];
    } else {
      assert visits[..i] == visits;
    }
  }

  predicate Forward(visits: seq<Visit>) {
    forall i, j | 0 <= i < j < |visits| :: visits[i].now <= visits[j].now
  }

  /** Once the deadline of the consent has passed, the endpoint is never asked again: the service runs out with its
      last access token. */
  lemma NoExchangeAfterTheDeadline(start: Identity, visits: seq<Visit>, i: nat, j: nat, separates: char -> bool)
    requires Forward(visits) && i <= j < |visits| && i < |visits|
    requires StateAfter(start, visits[..i], separates).refresh.Some? ==>
               StateAfter(start, visits[..i], separates).refresh.value.expiry <= visits[i].now
    ensures !Exchanges(StateAfter(start, visits[..j], separates), visits[j].now)
  {
    DeadlineNeverLater(start, visits[..j], i, separates);
    assert visits[..j][..i] == visits[..i];
    assert visits[i].now <= visits[j].now;
    hide StateAfter;
  }

  /** After a renewal nobody renews again until the new token is in its last five minutes: a waiting thread finds
      the renewed token. */
  lemma WaitersFindTheRenewal(data: Identity, first: Visit, second: Visit, separates: char -> bool)
    requires Exchanges(data, first.now) && Visited(data, first, separates).1.Ok?
    requires second.now < Visited(data, first, separates).0.accessExpiry - EARLY_SECONDS
    ensures Visited(Visited(data, first, separates).0, second, separates)
         == (Visited(data, first, separates).0, Visited(data, first, separates).1)
  {
    hide ScopeSet, LowerText;
  }

  /** What an exchange leaves: a renewed token is the answer's, with the lifetime the answer names, up to the maximum, and
      with its refresh token if it brings one; a failed exchange, and none at all, leave everything as it was. */
  lemma RenewalIsTheAnswer(data: Identity, visit: Visit, separates: char -> bool)
    ensures var (after, r) := Visited(data, visit, separates);
            if Exchanges(data, visit.now) && r.Ok? then
              && visit.endpoint.Ok? && visit.endpoint.value.Raw?
              && var raw := visit.endpoint.value;
                 && raw.accessToken == Word(r.value) && after.accessToken == r.value
                 && raw.expiresIn.Number? && 0 < raw.expiresIn.number
                 && after.accessExpiry == visit.now + (if raw.expiresIn.number < 60 * 86400 then raw.expiresIn.number else 60 * 86400)
                 && after.refresh.Some?
                 && (raw.refreshToken == Missing ==> after.refresh == data.refresh)
                 && (raw.refreshToken != Missing ==>
                       raw.refreshToken == Word(after.refresh.value.token) && raw.refreshExpiresIn.Number?)
            else after == data
    ensures !Exchanges(data, visit.now) ==>
              Visited(data, visit, separates).1 == if visit.now < data.accessExpiry then Ok(data.accessToken)
                                                   else Err("token_abgelaufen")
    ensures Exchanges(data, visit.now) && visit.endpoint.Err? ==>
              Visited(data, visit, separates).1 == Err(visit.endpoint.error)
    ensures Exchanges(data, visit.now) && visit.endpoint.Ok? && Visited(data, visit, separates).1.Err? ==>
              Visited(data, visit, separates).1 == Err("unexpected_source_shape")
  {
    hide ScopeSet, LowerText;
  }

  /** A lifetime that is a number within its maximum and a day. */
  predicate Lasts(value: Value, days: int) {
    value.Number? && 0 < value.number <= (days + 1) * 86400
  }

  /** Which answers of the token endpoint are taken: the scopes of the grant and a bearer token where they are named, a
      secret with its lifetime, and a refresh token only with a lifetime of its own. */
  lemma WhichAnswersAreTaken(raw: Raw, now: int, original: Option<int>, scopeRequired: bool, separates: char -> bool)
    ensures TokenResult(raw, now, original, scopeRequired, separates).Some? <==>
              && raw.Raw?
              && (if raw.scope == Missing then !scopeRequired
                  else raw.scope.Word? && ScopeSet(raw.scope.text, separates) == GRANT_SCOPES)
              && (raw.tokenType == Missing || (raw.tokenType.Word? && LowerText(raw.tokenType.text) == "bearer"))
              && IsSecret(raw.accessToken) && Lasts(raw.expiresIn, 60)
              && (raw.refreshToken == Missing || (IsSecret(raw.refreshToken) && Lasts(raw.refreshExpiresIn, 365)))
  {
    hide ScopeSet, LowerText, IsSecret;
  }

  /** When the endpoint is asked: with a consent that has not run out, from five minutes before the end of the token. */
  lemma ExchangeWindow(data: Identity, now: int)
    ensures Exchanges(data, now) <==>
              data.refresh.Some? && now < data.refresh.value.expiry && data.accessExpiry <= now + 300
  {
  }

  /** An answer of the usual shape is taken, and gives what it says. */
  lemma UsualAnswer(token: string, seconds: int, now: int, original: Option<int>, separates: char -> bool)
    requires IsSecret(Word(token)) && 0 < seconds <= 60 * 86400
    ensures TokenResult(Raw(Missing, Missing, Number(seconds), Word(token), Missing, Missing), now, original, false, separates)
         == Some(Update(token, now + seconds, None))
    ensures IsSecret(Word(token)) <==> 1 <= |token| <= 8192 && forall c | c in token :: '!' <= c <= '~'
  {
  }

  /** What the start of the service checks of its stored identity. */
  predicate StartOk(data: Identity, now: int) {
    && data.accessExpiry <= now + ACCESS_DAYS * DAY_SECONDS + 60
    && (data.refresh.Some? ==> data.refresh.value.expiry <= now + REFRESH_DAYS * DAY_SECONDS + 60)
  }

  /** Every lifetime of the service's own making keeps the documented maximum, counted from the newest visit; only what
      it has found at its start, and never replaced, may lie further ahead. */
  lemma {:induction false} LifetimesKept(start: Identity, visits: seq<Visit>, separates: char -> bool)
    requires Forward(visits) && visits != []
    ensures var (data, now) := (StateAfter(start, visits, separates), visits[|visits| - 1].now);
            && (data.accessExpiry == start.accessExpiry || data.accessExpiry <= now + 60 * 86400)
            && (data.refresh.Some? ==>
                  data.refresh == start.refresh || data.refresh.value.expiry <= now + 365 * 86400)
    decreases |visits|
  {
    hide ScopeSet, LowerText;
    var before := visits[..|visits| - 1];
    if before != [] {
      LifetimesKept(start, before, separates);
      assert before[|before| - 1].now <= visits[|visits| - 1].now;
    }
  }

  /** What the start accepts holds at every later visit: the check allows a minute more than the documented maximum. */
  lemma {:induction false} LifetimesBounded(start: Identity, visits: seq<Visit>, began: int, separates: char -> bool)
    requires StartOk(start, began) && Forward(visits) && (visits != [] ==> began <= visits[0].now)
    ensures StartOk(StateAfter(start, visits, separates), if visits == [] then began else visits[|visits| - 1].now)
    decreases |visits|
  {
    hide ScopeSet, LowerText;
    if visits != [] {
      var before := visits[..|visits| - 1];
      LifetimesBounded(start, before, began, separates);
    }
  }
}
