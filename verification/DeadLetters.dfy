/** Dead-letter records: the original fields followed by `dead.` metadata. */
module DeadLetters {
  import opened Common
  import opened StreamFields

  const DEAD_LETTER_ERROR_MAX_LENGTH := 500

  const DEAD_PREFIX := "dead."
  const SOURCE_ID := DEAD_PREFIX + "sourceId"
  const GROUP := DEAD_PREFIX + "group"
  const CONSUMER := DEAD_PREFIX + "consumer"
  const REASON := DEAD_PREFIX + "reason"
  const ATTEMPTS := DEAD_PREFIX + "attempts"
  const ERROR := DEAD_PREFIX + "error"
  const AT := DEAD_PREFIX + "at"

  datatype Reason = RejectedReason | Exhausted | Malformed | Trimmed

  function ReasonText(reason: Reason): string {
    match reason
    case RejectedReason => "rejected"
    case Exhausted => "max_deliveries"
    case Malformed => "malformed"
    case Trimmed => "trimmed"
  }

  /** `at` is the moment as ISO 8601 text. */
  datatype DeadLetter = DeadLetter(
    sourceId: string, group: string, consumer: string, reason: Reason, attempts: nat, error: string, at: string)

  const DIGITS := "0123456789"

  /** A count in decimal. */
  function Decimal(n: nat): (text: string)
    ensures |text| >= 1
  {
    if n < 10 then [DIGITS[n]] else Decimal(n / 10) + [DIGITS[n % 10]]
  }

  predicate IsDead(name: string) {
    DEAD_PREFIX <= name
  }

  /** The pairs whose name carries no `dead.` prefix. */
  function Kept(fields: Fields): Fields {
    if |fields| < 2 then []
    else (if IsDead(fields[0]) then [] else Field(fields[0], fields[1])) + Kept(fields[2..])
  }

  function Shortened(error: string): string {
    error[..Min(|error|, DEAD_LETTER_ERROR_MAX_LENGTH)]
  }

  /** The error is kept to 500 characters, from its beginning; the four reasons read differently. */
  lemma ShortenedExactly(error: string, a: Reason, b: Reason)
    ensures Shortened(error) <= error && |Shortened(error)| == if |error| <= 500 then |error| else 500
    ensures ReasonText(a) == ReasonText(b) ==> a == b
  {
    assert ReasonText(RejectedReason)[0] == 'r' && |ReasonText(Exhausted)| == 14 && |ReasonText(Malformed)| == 9;
    assert ReasonText(Trimmed)[0] == 't' && |ReasonText(RejectedReason)| == 8 && |ReasonText(Trimmed)| == 7;
  }

  function DeadFields(letter: DeadLetter): Fields {
    Field(SOURCE_ID, letter.sourceId) + (Field(GROUP, letter.group) + (Field(CONSUMER, letter.consumer)
    + (Field(REASON, ReasonText(letter.reason)) + (Field(ATTEMPTS, Decimal(letter.attempts))
    + (Field(ERROR, Shortened(letter.error)) + (Field(AT, letter.at) + []))))))
  }

  function OrEmpty(original: Option<Fields>): Fields {
    if original.Some? then original.value else []
  }

  function DeadLetterFields(original: Option<Fields>, letter: DeadLetter): Fields {
    Kept(OrEmpty(original)) + DeadFields(letter)
  }

  lemma {:induction false} KeptOfConcat(a: Fields, b: Fields)
    requires |a| % 2 == 0
    ensures Kept(a + b) == Kept(a) + Kept(b)
    decreases |a|
  {
    if a == [] {
      assert a + b == b;
    } else {
      assert (a + b)[2..] == a[2..] + b;
      KeptOfConcat(a[2..], b);
    }
  }

  lemma KeptOneMore(before: Fields, name: string, value: string)
    requires |before| % 2 == 0
    ensures Kept(before + [name, value]) == Kept(before) + if IsDead(name) then [] else [name, value]
  {
    KeptOfConcat(before, [name, value]);
    KeptOfAPair(name, value);
  }

  lemma KeptOfAPair(name: string, value: string)
    ensures Kept([name, value]) == if IsDead(name) then [] else [name, value]
  {
    assert [name, value][2..] == [];
  }

  lemma DeadFieldsInOrder(letter: DeadLetter)
    ensures DeadFields(letter) == [
              SOURCE_ID, letter.sourceId, GROUP, letter.group, CONSUMER, letter.consumer,
              REASON, ReasonText(letter.reason), ATTEMPTS, Decimal(letter.attempts),
              ERROR, Shortened(letter.error), AT, letter.at]
  {
  }

  lemma OddNameIsDropped(source: Fields, n: nat)
    requires n <= |source| <= n + 1 && n % 2 == 0
    ensures Kept(source) == Kept(source[..n])
  {
    assert source == source[..n] + source[n..];
    KeptOfConcat(source[..n], source[n..]);
  }

  method ToDeadLetterFields(original: Option<Fields>, letter: DeadLetter) returns (fields: Fields)
    ensures fields == DeadLetterFields(original, letter)
  {
    var kept: Fields := [];
    var source := OrEmpty(original);
    var index := 0;
    while index + 1 < |source|
      invariant 0 <= index <= |source| && index % 2 == 0
      invariant kept == Kept(source[..index])
      decreases |source| - index
    {
      KeptOneMore(source[..index], source[index], source[index + 1]);
      assert source[..index + 2] == source[..index] + [source[index], source[index + 1]];
      var name := source[index];
      if !IsDead(name) {
        kept := kept + [name, source[index + 1]];
      }
      index := index + 2;
    }
    OddNameIsDropped(source, index);
    DeadFieldsInOrder(letter);
    fields := kept + [
      SOURCE_ID, letter.sourceId, GROUP, letter.group, CONSUMER, letter.consumer,
      REASON, ReasonText(letter.reason), ATTEMPTS, Decimal(letter.attempts),
      ERROR, Shortened(letter.error), AT, letter.at];
  }

  // ---------- what the metadata says ----------

  function DecimalValue(text: string): nat {
    if text == [] then 0 else 10 * DecimalValue(text[..|text| - 1]) + DigitValue(text[|text| - 1])
  }

  function DigitValue(c: char): nat {
    if '0' <= c <= '9' then c as int - '0' as int else 0
  }

  /** The written attempt count reads back as the number. */
  lemma {:induction false} DecimalReadsBack(n: nat)
    ensures DecimalValue(Decimal(n)) == n
  {
    var text := Decimal(n);
    assert DigitValue(DIGITS[n % 10]) == n % 10;
    if n < 10 {
      assert text[..0] == [];
    } else {
      DecimalReadsBack(n / 10);
      assert text[..|text| - 1] == Decimal(n / 10);
    }
  }

  /** How many pairs carry a name. */
  function Occurrences(fields: Fields, name: string): nat {
    if |fields| < 2 then 0 else (if fields[0] == name then 1 else 0) + Occurrences(fields[2..], name)
  }

  lemma OccurrencesAfter(name: string, value: string, rest: Fields, wanted: string)
    ensures Occurrences(Field(name, value) + rest, wanted)
         == (if name == wanted then 1 else 0) + Occurrences(rest, wanted)
  {
    assert (Field(name, value) + rest)[2..] == rest;
  }

  lemma {:induction false} OccurrencesOfConcat(a: Fields, b: Fields, name: string)
    requires |a| % 2 == 0
    ensures Occurrences(a + b, name) == Occurrences(a, name) + Occurrences(b, name)
    decreases |a|
  {
    if a == [] {
      assert a + b == b;
    } else {
      assert (a + b)[2..] == a[2..] + b;
      OccurrencesOfConcat(a[2..], b, name);
    }
  }

  const DEAD_NAMES := [SOURCE_ID, GROUP, CONSUMER, REASON, ATTEMPTS, ERROR, AT]

  /** The seven metadata names are different and carry the prefix; the envelope names do not. */
  lemma DeadNamesDiffer()
    ensures forall i, j :: 0 <= i < j < |DEAD_NAMES| ==> DEAD_NAMES[i] != DEAD_NAMES[j]
    ensures forall i :: 0 <= i < |DEAD_NAMES| ==> IsDead(DEAD_NAMES[i])
  {
    assert |SOURCE_ID| == 13 && |GROUP| == 10 && |CONSUMER| == 13 && |REASON| == 11 && |ATTEMPTS| == 13;
    assert |ERROR| == 10 && |AT| == 7;
    assert SOURCE_ID[5] == 's' && CONSUMER[5] == 'c' && ATTEMPTS[5] == 'a' && GROUP[5] == 'g' && ERROR[5] == 'e';
  }

  lemma EnvelopeNamesAreNotDead()
    ensures !IsDead(EVENT_ID) && !IsDead(TOPIC) && !IsDead(PARTITION_KEY) && !IsDead(OCCURRED_AT)
    ensures !IsDead(PAYLOAD) && !IsDead(REQUEST_ID) && !IsDead(TRACEPARENT)
  {
    assert DEAD_PREFIX[0] == 'd';
  }

  lemma OccurrencesOfDeadFields(letter: DeadLetter, name: string)
    ensures Occurrences(DeadFields(letter), name) == if name in DEAD_NAMES then 1 else 0
  {
    DeadNamesDiffer();
    var f7 := Field(AT, letter.at) + [];
    var f6 := Field(ERROR, Shortened(letter.error)) + f7;
    var f5 := Field(ATTEMPTS, Decimal(letter.attempts)) + f6;
    var f4 := Field(REASON, ReasonText(letter.reason)) + f5;
    var f3 := Field(CONSUMER, letter.consumer) + f4;
    var f2 := Field(GROUP, letter.group) + f3;
    OccurrencesAfter(AT, letter.at, [], name);
    OccurrencesAfter(ERROR, Shortened(letter.error), f7, name);
    OccurrencesAfter(ATTEMPTS, Decimal(letter.attempts), f6, name);
    OccurrencesAfter(REASON, ReasonText(letter.reason), f5, name);
    OccurrencesAfter(CONSUMER, letter.consumer, f4, name);
    OccurrencesAfter(GROUP, letter.group, f3, name);
    OccurrencesAfter(SOURCE_ID, letter.sourceId, f2, name);
    SevenNames(name);
  }

  lemma SevenNames(name: string)
    ensures name in DEAD_NAMES <==>
              name == SOURCE_ID || name == GROUP || name == CONSUMER || name == REASON || name == ATTEMPTS
              || name == ERROR || name == AT
    ensures var d := DEAD_NAMES;
            d[0] == SOURCE_ID && d[1] == GROUP && d[2] == CONSUMER && d[3] == REASON && d[4] == ATTEMPTS
              && d[5] == ERROR
            && d[6] == AT
  {
  }

  lemma {:induction false} KeptHasNoDeadField(fields: Fields, name: string)
    ensures |Kept(fields)| % 2 == 0
    ensures IsDead(name) ==> Occurrences(Kept(fields), name) == 0
    decreases |fields|
  {
    if |fields| >= 2 {
      KeptHasNoDeadField(fields[2..], name);
      if !IsDead(fields[0]) {
        OccurrencesAfter(fields[0], fields[1], Kept(fields[2..]), name);
      } else {
        assert Kept(fields) == Kept(fields[2..]);
      }
    }
  }

  /** Each metadata field occurs exactly once, and no other `dead.` field remains from an earlier death. */
  lemma MetadataOccursOnce(original: Option<Fields>, letter: DeadLetter, name: string)
    requires IsDead(name)
    ensures Occurrences(DeadLetterFields(original, letter), name) == if name in DEAD_NAMES then 1 else 0
  {
    KeptHasNoDeadField(OrEmpty(original), name);
    OccurrencesOfConcat(Kept(OrEmpty(original)), DeadFields(letter), name);
    OccurrencesOfDeadFields(letter, name);
  }

  lemma {:induction false} ValueOfConcat(a: Fields, b: Fields, name: string)
    requires |a| % 2 == 0
    ensures ValueOf(a + b, name) == if ValueOf(b, name).Some? then ValueOf(b, name) else ValueOf(a, name)
    decreases |a|
  {
    if a == [] {
      assert a + b == b;
    } else {
      assert (a + b)[2..] == a[2..] + b;
      ValueOfConcat(a[2..], b, name);
    }
  }

  lemma ValueOfDeadFields(letter: DeadLetter, name: string)
    ensures ValueOf(DeadFields(letter), name)
         == if name == AT then Some(letter.at)
            else if name == ERROR then Some(Shortened(letter.error))
            else if name == ATTEMPTS then Some(Decimal(letter.attempts))
            else if name == REASON then Some(ReasonText(letter.reason))
            else if name == CONSUMER then Some(letter.consumer)
            else if name == GROUP then Some(letter.group)
            else if name == SOURCE_ID then Some(letter.sourceId)
            else None
  {
    var f7 := Field(AT, letter.at) + [];
    var f6 := Field(ERROR, Shortened(letter.error)) + f7;
    var f5 := Field(ATTEMPTS, Decimal(letter.attempts)) + f6;
    var f4 := Field(REASON, ReasonText(letter.reason)) + f5;
    var f3 := Field(CONSUMER, letter.consumer) + f4;
    var f2 := Field(GROUP, letter.group) + f3;
    ValueAfter(AT, letter.at, [], name);
    ValueAfter(ERROR, Shortened(letter.error), f7, name);
    ValueAfter(ATTEMPTS, Decimal(letter.attempts), f6, name);
    ValueAfter(REASON, ReasonText(letter.reason), f5, name);
    ValueAfter(CONSUMER, letter.consumer, f4, name);
    ValueAfter(GROUP, letter.group, f3, name);
    ValueAfter(SOURCE_ID, letter.sourceId, f2, name);
  }

  /** The metadata reads back as the letter, whatever the original carried before. */
  lemma MetadataReadsBack(original: Option<Fields>, letter: DeadLetter)
    ensures var f := DeadLetterFields(original, letter);
            && ValueOf(f, SOURCE_ID) == Some(letter.sourceId) && ValueOf(f, GROUP) == Some(letter.group)
            && ValueOf(f, CONSUMER) == Some(letter.consumer) && ValueOf(f, REASON) == Some(ReasonText(letter.reason))
            && ValueOf(f, ATTEMPTS).Some? && DecimalValue(ValueOf(f, ATTEMPTS).value) == letter.attempts
            && ValueOf(f, ERROR).Some? && ValueOf(f, ERROR).value <= letter.error
            && |ValueOf(f, ERROR).value| == Min(|letter.error|, DEAD_LETTER_ERROR_MAX_LENGTH)
            && ValueOf(f, AT) == Some(letter.at)
  {
    DeadNamesDiffer();
    DecimalReadsBack(letter.attempts);
    SevenNames(AT);
    forall i | 0 <= i < |DEAD_NAMES|
      ensures ValueOf(DeadLetterFields(original, letter), DEAD_NAMES[i]) == ValueOf(DeadFields(letter), DEAD_NAMES[i])
    {
      KeptHasNoDeadField(OrEmpty(original), DEAD_NAMES[i]);
      ValueOfDeadFields(letter, DEAD_NAMES[i]);
      ValueOfConcat(Kept(OrEmpty(original)), DeadFields(letter), DEAD_NAMES[i]);
    }
    forall i | 0 <= i < |DEAD_NAMES|
      ensures ValueOf(DeadFields(letter), DEAD_NAMES[i]) == Some(match i
              case 0 => letter.sourceId
              case 1 => letter.group
              case 2 => letter.consumer
              case 3 => ReasonText(letter.reason)
              case 4 => Decimal(letter.attempts)
              case 5 => Shortened(letter.error)
              case _ => letter.at)
    {
      ValueOfDeadFields(letter, DEAD_NAMES[i]);
    }
  }

  // ---------- replaying by hand ----------

  /** Dropping the `dead.` fields of a list changes it exactly when there are some (or an odd name is left over). */
  lemma {:induction false} KeptIsIdentityExactlyWithoutDeadFields(fields: Fields)
    ensures Kept(fields) == fields
       <==> |fields| % 2 == 0 && forall i :: 0 <= i && 2 * i + 1 < |fields| ==> !IsDead(fields[2 * i])
    ensures |Kept(fields)| <= |fields|
    decreases |fields|
  {
    if |fields| >= 2 {
      var rest := fields[2..];
      KeptIsIdentityExactlyWithoutDeadFields(rest);
      assert fields == Field(fields[0], fields[1]) + rest;
      assert forall i :: 0 <= i && 2 * i + 1 < |rest| ==> rest[2 * i] == fields[2 * (i + 1)];
      if IsDead(fields[0]) {
        assert IsDead(fields[2 * 0]);
      } else {
        assert Kept(fields) == fields ==> Kept(rest) == rest by {
          if Kept(fields) == fields {
            assert (Field(fields[0], fields[1]) + Kept(rest))[2..] == Kept(rest);
          }
        }
        assert forall i :: 1 <= i && 2 * i + 1 < |fields| ==> fields[2 * i] == rest[2 * (i - 1)];
      }
    }
  }

  lemma {:induction false} KeptTwice(fields: Fields)
    ensures Kept(Kept(fields)) == Kept(fields) && |Kept(fields)| % 2 == 0
    decreases |fields|
  {
    if |fields| >= 2 {
      KeptTwice(fields[2..]);
      if !IsDead(fields[0]) {
        assert (Field(fields[0], fields[1]) + Kept(fields[2..]))[2..] == Kept(fields[2..]);
      } else {
        assert Kept(fields) == Kept(fields[2..]);
      }
    }
  }

  lemma KeptAfterDead(name: string, value: string, rest: Fields)
    requires IsDead(name)
    ensures Kept(Field(name, value) + rest) == Kept(rest)
  {
    assert (Field(name, value) + rest)[2..] == rest;
  }

  lemma NothingOfTheMetadataIsKept(letter: DeadLetter)
    ensures Kept(DeadFields(letter)) == []
  {
    DeadNamesDiffer();
    SevenNames(AT);
    var f7 := Field(AT, letter.at) + [];
    var f6 := Field(ERROR, Shortened(letter.error)) + f7;
    var f5 := Field(ATTEMPTS, Decimal(letter.attempts)) + f6;
    var f4 := Field(REASON, ReasonText(letter.reason)) + f5;
    var f3 := Field(CONSUMER, letter.consumer) + f4;
    var f2 := Field(GROUP, letter.group) + f3;
    KeptAfterDead(AT, letter.at, []);
    KeptAfterDead(ERROR, Shortened(letter.error), f7);
    KeptAfterDead(ATTEMPTS, Decimal(letter.attempts), f6);
    KeptAfterDead(REASON, ReasonText(letter.reason), f5);
    KeptAfterDead(CONSUMER, letter.consumer, f4);
    KeptAfterDead(GROUP, letter.group, f3);
    KeptAfterDead(SOURCE_ID, letter.sourceId, f2);
  }

  /** Dropping the `dead.` fields of a dead letter gives the original pairs back, in order. */
  lemma ReplayingRestoresTheOriginal(original: Fields, letter: DeadLetter)
    ensures Kept(DeadLetterFields(Some(original), letter)) == Kept(original)
    ensures |original| % 2 == 0 && (forall i :: 0 <= i && 2 * i + 1 < |original| ==> !IsDead(original[2 * i]))
            ==> Kept(DeadLetterFields(Some(original), letter)) == original
  {
    KeptTwice(original);
    KeptOfConcat(Kept(original), DeadFields(letter));
    NothingOfTheMetadataIsKept(letter);
    KeptIsIdentityExactlyWithoutDeadFields(original);
  }

  /** A record's way through the dead-letter stream: each time it died, and whether its `dead.` fields were dropped. */
  datatype Death = Death(letter: DeadLetter, stripped: bool)

  function AfterDeaths(fields: Fields, deaths: seq<Death>): Fields {
    if deaths == [] then fields
    else
      var before := AfterDeaths(fields, deaths[..|deaths| - 1]);
      var last := deaths[|deaths| - 1];
      var letter := DeadLetterFields(Some(before), last.letter);
      if last.stripped then Kept(letter) else letter
  }

  lemma {:induction false} ValueOfKept(fields: Fields, name: string)
    requires !IsDead(name)
    ensures ValueOf(Kept(fields), name) == ValueOf(fields, name)
    decreases |fields|
  {
    if |fields| >= 2 {
      ValueOfKept(fields[2..], name);
      assert fields == Field(fields[0], fields[1]) + fields[2..];
      ValueAfter(fields[0], fields[1], fields[2..], name);
      if IsDead(fields[0]) {
        assert Kept(fields) == Kept(fields[2..]);
      } else {
        ValueAfter(fields[0], fields[1], Kept(fields[2..]), name);
      }
    }
  }

  lemma {:induction false} DeathsKeepOtherValues(fields: Fields, deaths: seq<Death>, name: string)
    requires !IsDead(name)
    ensures ValueOf(AfterDeaths(fields, deaths), name) == ValueOf(fields, name)
    decreases |deaths|
  {
    if deaths != [] {
      var before := AfterDeaths(fields, deaths[..|deaths| - 1]);
      var last := deaths[|deaths| - 1];
      DeathsKeepOtherValues(fields, deaths[..|deaths| - 1], name);
      ValueOfKept(before, name);
      KeptTwice(before);
      ValueOfDeadFields(last.letter, name);
      DeadNamesDiffer();
      SevenNames(name);
      ValueOfConcat(Kept(before), DeadFields(last.letter), name);
      ValueOfKept(DeadLetterFields(Some(before), last.letter), name);
    }
  }

  /** However often a record died and came back, dropping the `dead.` fields leaves its original pairs, in order. */
  lemma {:induction false} AnyReplayRestoresTheOriginal(fields: Fields, deaths: seq<Death>)
    ensures Kept(AfterDeaths(fields, deaths)) == Kept(fields)
    decreases |deaths|
  {
    if deaths != [] {
      var before := AfterDeaths(fields, deaths[..|deaths| - 1]);
      AnyReplayRestoresTheOriginal(fields, deaths[..|deaths| - 1]);
      ReplayingRestoresTheOriginal(before, deaths[|deaths| - 1].letter);
      KeptTwice(DeadLetterFields(Some(before), deaths[|deaths| - 1].letter));
    }
  }

  /** Any record parses and peeks the same after any number of deaths and replays. */
  lemma DeathsDoNotChangeTheEnvelope(schema: Schema, fields: Fields, deaths: seq<Death>)
    ensures FromStreamFields(schema, AfterDeaths(fields, deaths)) == FromStreamFields(schema, fields)
    ensures PeekEnvelope(AfterDeaths(fields, deaths)) == PeekEnvelope(fields)
  {
    EnvelopeNamesAreNotDead();
    DeathsKeepOtherValues(fields, deaths, EVENT_ID);
    DeathsKeepOtherValues(fields, deaths, TOPIC);
    DeathsKeepOtherValues(fields, deaths, PARTITION_KEY);
    DeathsKeepOtherValues(fields, deaths, OCCURRED_AT);
    DeathsKeepOtherValues(fields, deaths, PAYLOAD);
    DeathsKeepOtherValues(fields, deaths, REQUEST_ID);
    DeathsKeepOtherValues(fields, deaths, TRACEPARENT);
  }

  /** A valid envelope survives the wire and any number of dead-letterings. */
  lemma EnvelopeSurvivesDeadLettering(schema: Schema, e: Envelope, deaths: seq<Death>)
    requires schema.CodecIsFaithful() && schema.Accepts(e)
    ensures FromStreamFields(schema, AfterDeaths(ToStreamFields(schema, e), deaths)) == Parsed(e)
  {
    EnvelopeRoundTrip(schema, e);
    DeathsDoNotChangeTheEnvelope(schema, ToStreamFields(schema, e), deaths);
  }
}
