/**
 * src/monitor.js: one polling cycle of the outage monitor.
 *
 * The page scrape (`getInfo`), the Telegram HTTP call, `Math.random` and
 * `getToday` are outside the model: their results are parameters of `Run`.
 */
module Monitor {
  import opened Wrappers
  import opened JsStrings
  import opened Helpers

  /* ================== DATA ================== */

  /** A field of the scraped JSON: missing, `null`, or a string. */
  datatype Field = Undefined | Null | Str(value: string)

  /** The house entry `info.data[HOUSE]` (`type` is spelled `outageType` here). */
  datatype House = House(subType: Field, startDate: Field, endDate: Field, outageType: Field)

  /**
   * The scraped answer. `house` is `None` when `info`, `info.data` or the
   * entry for the house is missing; `updateTimestamp` feeds only the message body.
   */
  datatype Info = Info(house: Option<House>, updateTimestamp: Field)

  /** `info?.data?.[HOUSE] || {}`: the house entry, or an object with no fields. */
  function HouseOf(info: Info): (h: House)
    ensures info.house.Some? ==> h == info.house.value
    ensures info.house.None? ==> h.subType == h.startDate == h.endDate == h.outageType == Undefined
  {
    info.house.GetOr(House(Undefined, Undefined, Undefined, Undefined))
  }

  /* ================== CHECKS ================== */

  /** `checkIsOutage`: some field differs from "" (so a missing house record counts as an outage). */
  function IsOutage(info: Info): (r: bool)
    ensures !r <==> info.house == Some(House(Str(""), Str(""), Str(""), Str("")))
    ensures info.house.None? ==> r
  {
    var h := HouseOf(info);
    h.subType != Str("") || h.startDate != Str("") || h.endDate != Str("") || h.outageType != Str("")
  }

  /** `sub_type` can be lower-cased: the default `= ""` covers undefined but not null. */
  predicate SubTypeDefined(info: Info) {
    !HouseOf(info).subType.Null?
  }

  /** `sub_type` with its default "" applied. */
  function SubTypeOrEmpty(info: Info): (s: string)
    requires SubTypeDefined(info)
    ensures HouseOf(info).subType == Str(s) || (HouseOf(info).subType == Undefined && s == "")
  {
    match HouseOf(info).subType
    case Str(s) => s
    case Undefined => ""
  }

  /** `sub_type.toLowerCase()`. */
  function LoweredSubType(info: Info): (s: string)
    requires SubTypeDefined(info)
    ensures |s| == |SubTypeOrEmpty(info)|
    ensures forall i :: 0 <= i < |s| ==> !IsUpperCase(s[i])
    ensures HouseOf(info).subType == Undefined ==> s == ""
  {
    Lower(SubTypeOrEmpty(info))
  }

  const Emergency: string := "авар"
  const Extreme: string := "екст"
  const StabilizationWord: string := "стабілізац"
  const ScheduleWord: string := "графік"

  /** `checkIsScheduled`: neither the emergency nor the extreme keyword occurs. */
  function IsScheduled(info: Info): (r: bool)
    requires SubTypeDefined(info)
    ensures HouseOf(info).subType == Undefined ==> r
  {
    var t := LoweredSubType(info);
    !Contains(t, Emergency) && !Contains(t, Extreme)
  }

  /** `checkIsStabilization`: the stabilisation or the schedule keyword occurs. */
  function IsStabilization(info: Info): (r: bool)
    requires SubTypeDefined(info)
    ensures HouseOf(info).subType == Undefined ==> !r
  {
    var t := LoweredSubType(info);
    Contains(t, StabilizationWord) || Contains(t, ScheduleWord)
  }

  /** The `shouldNotify` rule of `run`. */
  function ShouldNotify(info: Info): (r: bool)
    requires SubTypeDefined(info)
    ensures r ==> IsOutage(info)
  {
    IsOutage(info) && (!IsScheduled(info) || IsStabilization(info))
  }

  /** The four keywords are already lower-case, so lower-casing the label is all the matching needs. */
  lemma KeywordsAreLowerCase()
    ensures Lower(Emergency) == Emergency && Lower(Extreme) == Extreme
    ensures Lower(StabilizationWord) == StabilizationWord && Lower(ScheduleWord) == ScheduleWord
  {
    KeywordIsLowerCase(Emergency);
    KeywordIsLowerCase(Extreme);
    KeywordIsLowerCase(StabilizationWord);
    KeywordIsLowerCase(ScheduleWord);
  }

  /** One keyword is a fixed point of lower-casing. */
  lemma KeywordIsLowerCase(k: string)
    requires k == Emergency || k == Extreme || k == StabilizationWord || k == ScheduleWord
    ensures Lower(k) == k
  {
    if k == Emergency {
      assert NoUpperCase("авар");
    } else if k == Extreme {
      assert NoUpperCase("екст");
    } else if k == StabilizationWord {
      assert NoUpperCase("ізац");
      assert NoUpperCase("стабілізац");
    } else {
      assert NoUpperCase("графік");
    }
    LowerOfLowerCase(k);
  }

  /** `checkIsScheduled` is false exactly when a keyword occurs at some position of the lower-cased label. */
  lemma ScheduledIffNoOccurrence(info: Info)
    requires SubTypeDefined(info)
    ensures !IsScheduled(info) <==>
      (exists i :: OccursAt(LoweredSubType(info), Emergency, i)) ||
      (exists i :: OccursAt(LoweredSubType(info), Extreme, i))
  {
    ContainsIffOccurs(LoweredSubType(info), Emergency);
    ContainsIffOccurs(LoweredSubType(info), Extreme);
  }

  /** `checkIsStabilization` is true exactly when a keyword occurs at some position of the lower-cased label. */
  lemma StabilizationIffOccurrence(info: Info)
    requires SubTypeDefined(info)
    ensures IsStabilization(info) <==>
      (exists i :: OccursAt(LoweredSubType(info), StabilizationWord, i)) ||
      (exists i :: OccursAt(LoweredSubType(info), ScheduleWord, i))
  {
    ContainsIffOccurs(LoweredSubType(info), StabilizationWord);
    ContainsIffOccurs(LoweredSubType(info), ScheduleWord);
  }

  /** Keywords are matched whatever the case of the raw label ("Аварійне", "ГРАФІК", ...). */
  lemma KeywordMatchIgnoresCase(info: Info, k: string)
    requires SubTypeDefined(info)
    requires Contains(SubTypeOrEmpty(info), k)
    ensures Lower(k) == Emergency || Lower(k) == Extreme ==> !IsScheduled(info)
    ensures Lower(k) == StabilizationWord || Lower(k) == ScheduleWord ==> IsStabilization(info)
  {
    LowerPreservesContains(SubTypeOrEmpty(info), k);
  }

  /** A keyword written as in the source, found in the raw label, is found after lower-casing too. */
  lemma RawKeywordMatches(info: Info)
    requires SubTypeDefined(info)
    ensures Contains(SubTypeOrEmpty(info), Emergency) || Contains(SubTypeOrEmpty(info), Extreme) ==> !IsScheduled(info)
    ensures Contains(SubTypeOrEmpty(info), StabilizationWord) || Contains(SubTypeOrEmpty(info), ScheduleWord) ==>
      IsStabilization(info)
  {
    KeywordsAreLowerCase();
    var raw := SubTypeOrEmpty(info);
    if Contains(raw, Emergency) { KeywordMatchIgnoresCase(info, Emergency); }
    if Contains(raw, Extreme) { KeywordMatchIgnoresCase(info, Extreme); }
    if Contains(raw, StabilizationWord) { KeywordMatchIgnoresCase(info, StabilizationWord); }
    if Contains(raw, ScheduleWord) { KeywordMatchIgnoresCase(info, ScheduleWord); }
  }

  /** `shouldNotify` holds exactly for an outage whose label names one of the four keywords. */
  lemma ShouldNotifyIffKeyword(info: Info)
    requires SubTypeDefined(info)
    ensures ShouldNotify(info) <==>
      IsOutage(info) &&
      (Contains(LoweredSubType(info), Emergency) || Contains(LoweredSubType(info), Extreme) ||
       Contains(LoweredSubType(info), StabilizationWord) || Contains(LoweredSubType(info), ScheduleWord))
  {
  }

  /** A missing house record is an outage without a keyword: no notification and no recovery check. */
  lemma MissingHouseIsSilent(info: Info)
    requires info.house.None?
    ensures SubTypeDefined(info)
    ensures IsOutage(info) && IsScheduled(info) && !IsStabilization(info) && !ShouldNotify(info)
  {
  }

  /** Dates given as `null` (and a missing `type`) make an outage even with an empty label. */
  lemma NullDatesAreOutage(stamp: Field)
    ensures IsOutage(Info(Some(House(Str(""), Null, Null, Undefined)), stamp))
    ensures !ShouldNotify(Info(Some(House(Str(""), Null, Null, Undefined)), stamp))
  {
  }

  /* ================== MESSAGES ================== */

  /** The four headlines of `generateMessage`. */
  datatype Title = EmergencyTitle | ExtremeTitle | StabilizationTitle | DetectedTitle

  /** The headline text a title stands for. */
  function TitleText(t: Title): string {
    match t
    case EmergencyTitle => "🔴🚨 <b>Аварійне відключення</b>"
    case ExtremeTitle => "🔥🚨 <b>Екстрене відключення</b>"
    case StabilizationTitle => "🟡🗓️ <b>Стабілізаційне відключення</b>"
    case DetectedTitle => "⚡️ <b>Зафіксовано відключення</b>"
  }

  /** The four headlines are pairwise distinct. */
  lemma TitleTextInjective(a: Title, b: Title)
    requires TitleText(a) == TitleText(b)
    ensures a == b
  {
  }

  /** A keyword group and the title it selects. */
  datatype TitleRule = TitleRule(keywords: seq<string>, title: Title)

  /** The title rules of `generateMessage`, highest priority first; no match gives `DetectedTitle`. */
  const TitleRules: seq<TitleRule> := [
    TitleRule([Emergency], EmergencyTitle),
    TitleRule([Extreme], ExtremeTitle),
    TitleRule([StabilizationWord, ScheduleWord], StabilizationTitle)
  ]

  /** Some keyword of the list occurs in `s`. */
  function ContainsAny(s: string, keywords: seq<string>): (r: bool)
    ensures r <==> exists i :: 0 <= i < |keywords| && Contains(s, keywords[i])
  {
    if keywords == [] then false
    else Contains(s, keywords[0]) || ContainsAny(s, keywords[1..])
  }

  /** The title of the first rule whose keywords occur in `s`, or `DetectedTitle` when none does. */
  function FirstMatch(s: string, rules: seq<TitleRule>): (t: Title)
    ensures (forall i :: 0 <= i < |rules| ==> !ContainsAny(s, rules[i].keywords)) ==> t == DetectedTitle
    ensures forall i ::
      (0 <= i < |rules| && ContainsAny(s, rules[i].keywords) &&
       (forall j :: 0 <= j < i ==> !ContainsAny(s, rules[j].keywords)))
      ==> t == rules[i].title
    ensures t == DetectedTitle ||
      exists i :: 0 <= i < |rules| && rules[i].title == t && ContainsAny(s, rules[i].keywords)
  {
    if rules == [] then DetectedTitle
    else if ContainsAny(s, rules[0].keywords) then rules[0].title
    else FirstMatch(s, rules[1..])
  }

  /** The title chosen for a lower-cased label. */
  function TitleFor(s: string): (t: Title)
    ensures t == DetectedTitle ||
      exists i :: 0 <= i < |TitleRules| && TitleRules[i].title == t && ContainsAny(s, TitleRules[i].keywords)
    ensures (forall i :: 0 <= i < |TitleRules| ==> !ContainsAny(s, TitleRules[i].keywords)) ==> t == DetectedTitle
  {
    FirstMatch(s, TitleRules)
  }

  /** Title priority: emergency beats extreme, extreme beats stabilisation/schedule, else the default. */
  lemma TitlePriority(s: string)
    ensures TitleFor(s) == EmergencyTitle <==> Contains(s, Emergency)
    ensures TitleFor(s) == ExtremeTitle <==> !Contains(s, Emergency) && Contains(s, Extreme)
    ensures TitleFor(s) == StabilizationTitle <==>
      !Contains(s, Emergency) && !Contains(s, Extreme) &&
      (Contains(s, StabilizationWord) || Contains(s, ScheduleWord))
    ensures TitleFor(s) == DetectedTitle <==>
      !Contains(s, Emergency) && !Contains(s, Extreme) &&
      !Contains(s, StabilizationWord) && !Contains(s, ScheduleWord)
  {
    var r0, r1, r2 := TitleRules[0], TitleRules[1], TitleRules[2];
    assert ContainsAny(s, r0.keywords) <==> Contains(s, Emergency) by {
      assert r0.keywords[0] == Emergency;
    }
    assert ContainsAny(s, r1.keywords) <==> Contains(s, Extreme) by {
      assert r1.keywords[0] == Extreme;
    }
    assert ContainsAny(s, r2.keywords) <==> Contains(s, StabilizationWord) || Contains(s, ScheduleWord) by {
      assert r2.keywords[0] == StabilizationWord && r2.keywords[1] == ScheduleWord;
    }
  }

  /** A notification always carries one of the three specific titles, and only keyword labels do. */
  lemma ShouldNotifyIffSpecificTitle(info: Info)
    requires SubTypeDefined(info)
    ensures ShouldNotify(info) <==> IsOutage(info) && TitleFor(LoweredSubType(info)) != DetectedTitle
  {
    TitlePriority(LoweredSubType(info));
  }

  /** A label holding the emergency keyword in any case ("Аварійне", "АВАРІЯ") notifies with the emergency title. */
  lemma EmergencyLabelNotifies(info: Info, k: string)
    requires SubTypeDefined(info)
    requires Contains(SubTypeOrEmpty(info), k) && Lower(k) == Emergency
    ensures ShouldNotify(info) && TitleFor(LoweredSubType(info)) == EmergencyTitle
  {
    KeywordMatchIgnoresCase(info, k);
    LowerPreservesContains(SubTypeOrEmpty(info), k);
    TitlePriority(LoweredSubType(info));
    assert SubTypeOrEmpty(info) != "" by {
      ContainsIffOccurs(SubTypeOrEmpty(info), k);
    }
  }

  /** The title step of `generateMessage`: `let title` reassigned through an if-chain. */
  method SelectTitle(info: Info) returns (title: Title)
    requires SubTypeDefined(info)
    ensures title == TitleFor(LoweredSubType(info))
  {
    var r := LoweredSubType(info);
    title := DetectedTitle;
    if Contains(r, Emergency) {
      title := EmergencyTitle;
    } else if Contains(r, Extreme) {
      title := ExtremeTitle;
    } else if Contains(r, StabilizationWord) || Contains(r, ScheduleWord) {
      title := StabilizationTitle;
    }
    TitlePriority(r);
  }

  /** What is sent: an outage message with its title, or the recovery message. */
  datatype Message = Alert(title: Title) | Recovery

  /* ================== UTILS ================== */

  const MinDelay: int := 5 * 60 * 1000
  const MaxDelay: int := 10 * 60 * 1000

  /** `getRandomDelay`, given the value `random` that `Math.random()` returned. */
  function RandomDelay(random: real): (ms: int)
    requires 0.0 <= random < 1.0
    ensures MinDelay <= ms <= MaxDelay
  {
    (random * (MaxDelay - MinDelay + 1) as real).Floor + MinDelay
  }

  /** Every delay between five and ten minutes is drawn for some random value. */
  lemma EveryDelayReachable(ms: int)
    requires MinDelay <= ms <= MaxDelay
    ensures exists random: real :: 0.0 <= random < 1.0 && RandomDelay(random) == ms
  {
    var random := (ms - MinDelay) as real / (MaxDelay - MinDelay + 1) as real;
    assert random * (MaxDelay - MinDelay + 1) as real == (ms - MinDelay) as real;
    assert RandomDelay(random) == ms;
  }

  /* ================== TELEGRAM ================== */

  datatype Endpoint = SendMessage | EditMessageText

  /** One Bot API request: the endpoint, the `message_id` in its body, and the message. */
  datatype TransportCall = TransportCall(endpoint: Endpoint, messageId: Option<int>, message: Message)

  /** The parsed Bot API answer; `result` is absent when the call failed. */
  datatype Response = Response(result: Option<Payload>)

  /** JavaScript truthiness of a stored `message_id` (undefined and 0 are falsy). */
  predicate Truthy(id: Option<int>): (r: bool)
    ensures id.None? ==> !r
    ensures id == Some(0) ==> !r
    ensures r ==> id.Some?
  {
    id.Some? && id.value != 0
  }

  /** The endpoint `sendNotification` posts to for a stored message id. */
  function EndpointFor(id: Option<int>): (e: Endpoint)
    ensures e == EditMessageText <==> Truthy(id)
    ensures e == SendMessage <==> !Truthy(id)
  {
    if Truthy(id) then EditMessageText else SendMessage
  }

  /**
   * `sendNotification(message)`: edit the stored message when its id is
   * truthy, send a new one otherwise, then overwrite the store from the
   * answer's `result` whatever it holds.
   */
  method SendNotification(store: LastMessageStore, message: Message, response: Response, today: string)
    returns (call: TransportCall)
    modifies store
    ensures call.message == message
    ensures call.messageId == StoredMessageId(old(store.file))
    ensures call.endpoint == EndpointFor(StoredMessageId(old(store.file)))
    ensures store.file == Written(Shape(response.result, today))
  {
    var last := store.Load();
    var id := MessageIdOf(last);
    call := TransportCall(EndpointFor(id), id, message);
    store.Save(response.result, today);
  }

  /** After a call whose answer has no `result`, the next call sends a new message instead of editing. */
  lemma FailedCallForgetsMessage(today: string)
    ensures StoredMessageId(Written(Shape(None, today))).None?
    ensures EndpointFor(StoredMessageId(Written(Shape(None, today)))) == SendMessage
  {
  }

  /** After a successful call the next one edits the message the answer named. */
  lemma NextCallEditsAnsweredMessage(p: Payload, today: string)
    requires Truthy(p.messageId)
    ensures EndpointFor(StoredMessageId(Written(Shape(Some(p), today)))) == EditMessageText
    ensures StoredMessageId(Written(Shape(Some(p), today))) == p.messageId
  {
  }

  /* ================== MAIN ================== */

  /** What one cycle did: the Bot API calls it made, and the delay when it re-checked. */
  datatype Cycle = Cycle(calls: seq<TransportCall>, delay: Option<int>)

  /**
   * `run`: classify the first scrape; notify at once when `shouldNotify`;
   * otherwise, when there is no outage and a live message exists, wait a
   * random delay, scrape again and send the recovery message if the second
   * scrape shows no outage either.
   */
  method Run(store: LastMessageStore, first: Info, recheck: Info, random: real, response: Response, today: string)
    returns (cycle: Cycle)
    requires SubTypeDefined(first)
    requires 0.0 <= random < 1.0
    modifies store
    ensures |cycle.calls| <= 1
    ensures ShouldNotify(first) ==> cycle.delay.None? && cycle.calls == [TransportCall(
      EndpointFor(StoredMessageId(old(store.file))), StoredMessageId(old(store.file)),
      Alert(TitleFor(LoweredSubType(first))))]
    ensures cycle.delay.Some? <==> !IsOutage(first) && Truthy(StoredMessageId(old(store.file)))
    ensures cycle.delay.Some? ==> cycle.delay.value == RandomDelay(random)
    ensures cycle.delay.Some? ==> (cycle.calls != [] <==> !IsOutage(recheck))
    ensures cycle.delay.Some? && cycle.calls != [] ==>
      cycle.calls[0] == TransportCall(EditMessageText, StoredMessageId(old(store.file)), Recovery)
    ensures !ShouldNotify(first) && cycle.delay.None? ==> cycle.calls == []
    ensures cycle.calls != [] ==> store.file == Written(Shape(response.result, today))
    ensures cycle.calls == [] ==> store.file == old(store.file)
  {
    var isOutage := IsOutage(first);
    var isScheduled := IsScheduled(first);
    var isStabilization := IsStabilization(first);
    var shouldNotify := isOutage && (!isScheduled || isStabilization);

    var lastMessage := store.Load();

    if shouldNotify {
      var title := SelectTitle(first);
      var call := SendNotification(store, Alert(title), response, today);
      return Cycle([call], None);
    }

    if !isOutage && Truthy(MessageIdOf(lastMessage)) {
      var delay := RandomDelay(random);
      var stillNoOutage := !IsOutage(recheck);
      if stillNoOutage {
        var call := SendNotification(store, Recovery, response, today);
        return Cycle([call], Some(delay));
      }
      return Cycle([], Some(delay));
    }

    cycle := Cycle([], None);
  }

  /**
   * Two calm cycles in a row: a successful recovery edit stores the answered
   * id again, so the next calm cycle re-checks and edits the recovery message once more.
   */
  method RepeatedRecovery(store: LastMessageStore, calm1: Info, calm2: Info, random1: real, random2: real,
                          response: Response, today: string)
    returns (c1: Cycle, c2: Cycle)
    requires Truthy(StoredMessageId(store.file))
    requires !IsOutage(calm1) && !IsOutage(calm2)
    requires 0.0 <= random1 < 1.0 && 0.0 <= random2 < 1.0
    requires response.result.Some? && Truthy(response.result.value.messageId)
    modifies store
    ensures c1.calls == [TransportCall(EditMessageText, StoredMessageId(old(store.file)), Recovery)]
    ensures c2.calls == [TransportCall(EditMessageText, response.result.value.messageId, Recovery)]
    ensures store.file == Written(Shape(response.result, today))
  {
    c1 := Run(store, calm1, calm1, random1, response, today);
    c2 := Run(store, calm2, calm2, random2, response, today);
  }
}
