/** Reading identifiers (main.py:488): "reading_", the local time formatted
    with `strftime('%Y%m%d_%H%M%S')`, "_", and `random.randint(1000, 9999)`.
    The clock reading and the random suffix are parameters. */
module ReadingIds {
  import opened Results
  import opened Text

  /** A local wall-clock time to the second, as `datetime.now()` yields it. */
  datatype Stamp = Stamp(year: nat, month: nat, day: nat, hour: nat, minute: nat, second: nat)

  predicate IsLeapYear(y: nat) {
    y % 4 == 0 && (y % 100 != 0 || y % 400 == 0)
  }

  function DaysInMonth(y: nat, m: nat): nat
    requires 1 <= m <= 12
  {
    if m == 2 then (if IsLeapYear(y) then 29 else 28)
    else if m == 4 || m == 6 || m == 9 || m == 11 then 30
    else 31
  }

  /** A calendar time with a four-digit year. */
  predicate ValidStamp(t: Stamp) {
    && 1000 <= t.year <= 9999
    && 1 <= t.month <= 12
    && 1 <= t.day <= DaysInMonth(t.year, t.month)
    && t.hour < 24 && t.minute < 60 && t.second < 60
  }

  /** The range of `random.randint(1000, 9999)`, both ends included. */
  predicate ValidSuffix(n: nat) {
    1000 <= n <= 9999
  }

  /** `strftime('%Y%m%d')`. */
  function DateText(t: Stamp): string
    requires ValidStamp(t)
  {
    Fixed(t.year, 4) + Fixed(t.month, 2) + Fixed(t.day, 2)
  }

  /** `strftime('%H%M%S')`. */
  function TimeText(t: Stamp): string
    requires ValidStamp(t)
  {
    Fixed(t.hour, 2) + Fixed(t.minute, 2) + Fixed(t.second, 2)
  }

  /** `strftime('%Y%m%d_%H%M%S')`: every field zero-padded to its width. */
  function StampText(t: Stamp): (s: string)
    requires ValidStamp(t)
    ensures |s| == 15 && s[8] == '_'
  {
    DateText(t) + "_" + TimeText(t)
  }

  /** Where each field sits in the formatted time. */
  lemma StampFields(t: Stamp)
    requires ValidStamp(t)
    ensures var s := StampText(t);
      && s[0..4] == Fixed(t.year, 4)
      && s[4..6] == Fixed(t.month, 2)
      && s[6..8] == Fixed(t.day, 2)
      && s[9..11] == Fixed(t.hour, 2)
      && s[11..13] == Fixed(t.minute, 2)
      && s[13..15] == Fixed(t.second, 2)
  {
    var s := StampText(t);
    ConcatParts(DateText(t), "_", TimeText(t));
    ConcatParts(Fixed(t.year, 4), Fixed(t.month, 2), Fixed(t.day, 2));
    ConcatParts(Fixed(t.hour, 2), Fixed(t.minute, 2), Fixed(t.second, 2));
    SliceOfSlice(s, 0, 8, 0, 4);
    SliceOfSlice(s, 0, 8, 4, 6);
    SliceOfSlice(s, 0, 8, 6, 8);
    SliceOfSlice(s, 9, 15, 0, 2);
    SliceOfSlice(s, 9, 15, 2, 4);
    SliceOfSlice(s, 9, 15, 4, 6);
  }

  /** The identifier a reading created at local time `t` with random suffix
      `suffix` is saved under. */
  function ReadingId(t: Stamp, suffix: nat): (id: string)
    requires ValidStamp(t) && ValidSuffix(suffix)
    ensures |id| == 28 && id[..8] == "reading_" && id[16] == '_' && id[23] == '_'
  {
    NatToStringFixed(suffix, 4);
    "reading_" + StampText(t) + "_" + NatToString(suffix)
  }

  /** The parts an identifier is made of. */
  datatype IdParts = IdParts(stamp: Stamp, suffix: nat)

  /** Recovers the time and the suffix from an identifier, rejecting any
      string that is not shaped like one. */
  function ParseReadingId(s: string): (r: Option<IdParts>)
    ensures r.Some? ==> ValidStamp(r.value.stamp) && ValidSuffix(r.value.suffix)
  {
    if |s| == 28 && s[..8] == "reading_" && s[16] == '_' && s[23] == '_'
       && AllDigits(s[8..12]) && AllDigits(s[12..14]) && AllDigits(s[14..16])
       && AllDigits(s[17..19]) && AllDigits(s[19..21]) && AllDigits(s[21..23])
       && AllDigits(s[24..])
    then
      var t := Stamp(ParseDigits(s[8..12]), ParseDigits(s[12..14]), ParseDigits(s[14..16]),
                     ParseDigits(s[17..19]), ParseDigits(s[19..21]), ParseDigits(s[21..23]));
      var n := ParseDigits(s[24..]);
      if ValidStamp(t) && ValidSuffix(n) then Some(IdParts(t, n)) else None
    else
      None
  }

  /** Where each field sits in an identifier. */
  lemma ReadingIdFields(t: Stamp, suffix: nat)
    requires ValidStamp(t) && ValidSuffix(suffix)
    ensures var id := ReadingId(t, suffix);
      && id[8..12] == Fixed(t.year, 4)
      && id[12..14] == Fixed(t.month, 2)
      && id[14..16] == Fixed(t.day, 2)
      && id[17..19] == Fixed(t.hour, 2)
      && id[19..21] == Fixed(t.minute, 2)
      && id[21..23] == Fixed(t.second, 2)
      && id[24..] == Fixed(suffix, 4)
  {
    NatToStringFixed(suffix, 4);
    var id := ReadingId(t, suffix);
    var stamp := StampText(t);
    assert id == "reading_" + stamp + ("_" + Fixed(suffix, 4));
    ConcatParts("reading_", stamp, "_" + Fixed(suffix, 4));
    assert id[24..] == ("_" + Fixed(suffix, 4))[1..];
    StampFields(t);
    SliceOfSlice(id, 8, 23, 0, 4);
    SliceOfSlice(id, 8, 23, 4, 6);
    SliceOfSlice(id, 8, 23, 6, 8);
    SliceOfSlice(id, 8, 23, 9, 11);
    SliceOfSlice(id, 8, 23, 11, 13);
    SliceOfSlice(id, 8, 23, 13, 15);
  }

  /** An identifier reads back as the time and suffix it was made from. */
  lemma ParseReadingIdRoundTrip(t: Stamp, suffix: nat)
    requires ValidStamp(t) && ValidSuffix(suffix)
    ensures ParseReadingId(ReadingId(t, suffix)) == Some(IdParts(t, suffix))
  {
    ReadingIdFields(t, suffix);
  }

  /** Whatever parses as an identifier is exactly the identifier of its parts. */
  lemma ReadingIdOfParse(s: string)
    requires ParseReadingId(s).Some?
    ensures ReadingId(ParseReadingId(s).value.stamp, ParseReadingId(s).value.suffix) == s
  {
    var p := ParseReadingId(s).value;
    FixedOfParse(s[8..12]);
    FixedOfParse(s[12..14]);
    FixedOfParse(s[14..16]);
    FixedOfParse(s[17..19]);
    FixedOfParse(s[19..21]);
    FixedOfParse(s[21..23]);
    FixedOfParse(s[24..]);
    ReadingIdFields(p.stamp, p.suffix);
    var id := ReadingId(p.stamp, p.suffix);
    assert id[..8] == s[..8];
    forall i | 0 <= i < 28
      ensures id[i] == s[i]
    {
      if i < 8 {
        assert id[..8][i] == s[..8][i];
      } else if 8 <= i < 12 {
        assert id[8..12][i - 8] == s[8..12][i - 8];
      } else if 12 <= i < 14 {
        assert id[12..14][i - 12] == s[12..14][i - 12];
      } else if 14 <= i < 16 {
        assert id[14..16][i - 14] == s[14..16][i - 14];
      } else if 17 <= i < 19 {
        assert id[17..19][i - 17] == s[17..19][i - 17];
      } else if 19 <= i < 21 {
        assert id[19..21][i - 19] == s[19..21][i - 19];
      } else if 21 <= i < 23 {
        assert id[21..23][i - 21] == s[21..23][i - 21];
      } else if 24 <= i {
        assert id[24..][i - 24] == s[24..][i - 24];
      }
    }
  }

  /** Two readings share an identifier only when they were created in the same
      second with the same random suffix. */
  lemma ReadingIdInjective(t1: Stamp, n1: nat, t2: Stamp, n2: nat)
    requires ValidStamp(t1) && ValidSuffix(n1) && ValidStamp(t2) && ValidSuffix(n2)
    ensures ReadingId(t1, n1) == ReadingId(t2, n2) <==> t1 == t2 && n1 == n2
  {
    ParseReadingIdRoundTrip(t1, n1);
    ParseReadingIdRoundTrip(t2, n2);
  }
}
