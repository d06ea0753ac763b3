/** The `tokens` table of `tokens/manage_tokens.py`, held in memory as a
    map from token to its row: insert-or-replace guarded by the expiry
    format check, delete, and the listing. */
module Tokens {
  import opened PyJson

  /** An expiry timestamp, as `datetime.strptime` reads it. */
  datatype DateTime = DateTime(year: nat, month: nat, day: nat, hour: nat, minute: nat, second: nat)

  predicate IsLeapYear(y: nat)
  {
    (y % 4 == 0 && y % 100 != 0) || y % 400 == 0
  }

  function DaysInMonth(y: nat, m: nat): nat
    requires 1 <= m <= 12
  {
    if m == 2 then (if IsLeapYear(y) then 29 else 28)
    else if m == 4 || m == 6 || m == 9 || m == 11 then 30
    else 31
  }

  /** The values a `datetime` accepts. */
  predicate ValidDateTime(dt: DateTime)
  {
    && 1 <= dt.year <= 9999
    && 1 <= dt.month <= 12
    && 1 <= dt.day <= DaysInMonth(dt.year, dt.month)
    && dt.hour < 24 && dt.minute < 60 && dt.second < 60
  }

  predicate IsDigit(c: char)
  {
    '0' <= c <= '9'
  }

  function DigitValue(c: char): nat
    requires IsDigit(c)
  {
    c as int - '0' as int
  }

  function DigitChar(d: nat): (c: char)
    requires d < 10
    ensures IsDigit(c) && DigitValue(c) == d
  {
    ('0' as int + d) as char
  }

  /** Positions of the digits in `YYYY-MM-DD HH:MM:SS`. */
  predicate DigitPosition(i: int)
  {
    0 <= i < 19 && i != 4 && i != 7 && i != 10 && i != 13 && i != 16
  }

  /** The layout `YYYY-MM-DD HH:MM:SS`, digits and separators only. */
  predicate WellShaped(s: string)
  {
    && |s| == 19
    && (forall i :: 0 <= i < 19 && DigitPosition(i) ==> IsDigit(s[i]))
    && s[4] == '-' && s[7] == '-' && s[10] == ' ' && s[13] == ':' && s[16] == ':'
  }

  function Field2(s: string, i: nat): nat
    requires i + 1 < |s| && IsDigit(s[i]) && IsDigit(s[i + 1])
  {
    10 * DigitValue(s[i]) + DigitValue(s[i + 1])
  }

  /** `datetime.strptime(expiry, "%Y-%m-%d %H:%M:%S")`: `None` stands for
      the `ValueError` it raises. */
  function ParseExpiry(s: string): (r: Option<DateTime>)
    ensures r.Some? ==> WellShaped(s) && ValidDateTime(r.value)
  {
    if !WellShaped(s) then None
    else
      var dt := DateTime(100 * Field2(s, 0) + Field2(s, 2), Field2(s, 5), Field2(s, 8),
                         Field2(s, 11), Field2(s, 14), Field2(s, 17));
      if ValidDateTime(dt) then Some(dt) else None
  }

  function Pad2(n: nat): (r: string)
    requires n < 100
    ensures |r| == 2 && IsDigit(r[0]) && IsDigit(r[1]) && 10 * DigitValue(r[0]) + DigitValue(r[1]) == n
  {
    [DigitChar(n / 10), DigitChar(n % 10)]
  }

  /** The text of a timestamp in the layout the check expects. */
  function FormatExpiry(dt: DateTime): (r: string)
    requires ValidDateTime(dt)
    ensures |r| == 19
  {
    Pad2(dt.year / 100) + Pad2(dt.year % 100) + "-" + Pad2(dt.month) + "-" + Pad2(dt.day) + " "
      + Pad2(dt.hour) + ":" + Pad2(dt.minute) + ":" + Pad2(dt.second)
  }

  /** The formatted text has the layout, and each of its fields reads back
      as the number written there. */
  lemma FormatFields(dt: DateTime)
    requires ValidDateTime(dt)
    ensures var s := FormatExpiry(dt);
      && WellShaped(s)
      && Field2(s, 0) == dt.year / 100 && Field2(s, 2) == dt.year % 100
      && Field2(s, 5) == dt.month && Field2(s, 8) == dt.day
      && Field2(s, 11) == dt.hour && Field2(s, 14) == dt.minute && Field2(s, 17) == dt.second
  {
    var s := FormatExpiry(dt);
    var y1, y2, mo, d := Pad2(dt.year / 100), Pad2(dt.year % 100), Pad2(dt.month), Pad2(dt.day);
    var h, mi, se := Pad2(dt.hour), Pad2(dt.minute), Pad2(dt.second);
    assert s == [y1[0], y1[1], y2[0], y2[1], '-', mo[0], mo[1], '-', d[0], d[1], ' ',
                 h[0], h[1], ':', mi[0], mi[1], ':', se[0], se[1]];
  }

  /** Every valid timestamp, written in the layout, is accepted and read
      back as itself. */
  lemma FormatThenParse(dt: DateTime)
    requires ValidDateTime(dt)
    ensures ParseExpiry(FormatExpiry(dt)) == Some(dt)
  {
    FormatFields(dt);
    assert 100 * (dt.year / 100) + dt.year % 100 == dt.year;
  }

  lemma Pad2OfField(s: string, i: nat)
    requires i + 1 < |s| && IsDigit(s[i]) && IsDigit(s[i + 1])
    ensures Pad2(Field2(s, i)) == [s[i], s[i + 1]]
  {
    var n := Field2(s, i);
    assert n / 10 == DigitValue(s[i]) && n % 10 == DigitValue(s[i + 1]);
  }

  lemma CenturySplit(hi: nat, lo: nat)
    requires lo < 100
    ensures (100 * hi + lo) / 100 == hi && (100 * hi + lo) % 100 == lo
  {
  }

  /** The fields of an accepted expiry are the numbers written in it. */
  lemma ParseFields(s: string)
    requires ParseExpiry(s).Some?
    ensures var dt := ParseExpiry(s).value;
      && dt.year == 100 * Field2(s, 0) + Field2(s, 2)
      && dt.month == Field2(s, 5) && dt.day == Field2(s, 8)
      && dt.hour == Field2(s, 11) && dt.minute == Field2(s, 14) && dt.second == Field2(s, 17)
  {
  }

  /** Every accepted expiry is the layout of the timestamp read from it:
      the check accepts nothing but that layout. */
  lemma ParseThenFormat(s: string)
    requires ParseExpiry(s).Some?
    ensures FormatExpiry(ParseExpiry(s).value) == s
  {
    FormatOfParsed(s);
    FieldsOfLayout(s);
  }

  /** The text of a parsed timestamp is made of the padded fields of `s`. */
  lemma FormatOfParsed(s: string)
    requires ParseExpiry(s).Some?
    ensures FormatExpiry(ParseExpiry(s).value) ==
      Pad2(Field2(s, 0)) + Pad2(Field2(s, 2)) + "-" + Pad2(Field2(s, 5)) + "-" + Pad2(Field2(s, 8)) + " "
        + Pad2(Field2(s, 11)) + ":" + Pad2(Field2(s, 14)) + ":" + Pad2(Field2(s, 17))
  {
    ParseFields(s);
    CenturySplit(Field2(s, 0), Field2(s, 2));
  }

  /** Padding the fields of a well-shaped text again gives the text back. */
  lemma FieldsOfLayout(s: string)
    requires WellShaped(s)
    ensures Pad2(Field2(s, 0)) + Pad2(Field2(s, 2)) + "-" + Pad2(Field2(s, 5)) + "-" + Pad2(Field2(s, 8)) + " "
        + Pad2(Field2(s, 11)) + ":" + Pad2(Field2(s, 14)) + ":" + Pad2(Field2(s, 17)) == s
  {
    Pad2OfField(s, 0);
    Pad2OfField(s, 2);
    Pad2OfField(s, 5);
    Pad2OfField(s, 8);
    Pad2OfField(s, 11);
    Pad2OfField(s, 14);
    Pad2OfField(s, 17);
    LayoutOfDigits(s);
  }

  lemma LayoutOfDigits(s: string)
    requires WellShaped(s)
    ensures s == [s[0], s[1]] + [s[2], s[3]] + "-" + [s[5], s[6]] + "-" + [s[8], s[9]] + " "
      + [s[11], s[12]] + ":" + [s[14], s[15]] + ":" + [s[17], s[18]]
  {
  }

  predicate ValidExpiry(expiry: string)
  {
    ParseExpiry(expiry).Some?
  }

  /** A leap day is accepted in a leap year. */
  lemma LeapDayAccepted()
    ensures ValidExpiry("2024-02-29 12:00:00")
  {
    var s := "2024-02-29 12:00:00";
    assert WellShaped(s);
    assert Field2(s, 0) == 20 && Field2(s, 2) == 24 && Field2(s, 5) == 2 && Field2(s, 8) == 29;
    assert Field2(s, 11) == 12 && Field2(s, 14) == 0 && Field2(s, 17) == 0;
    assert ValidDateTime(DateTime(2024, 2, 29, 12, 0, 0));
  }

  /** ... and refused in any other year: the check is a calendar check,
      not only a layout check. */
  lemma LeapDayRefusedInCommonYear()
    ensures !ValidExpiry("2023-02-29 12:00:00")
  {
    var s := "2023-02-29 12:00:00";
    assert WellShaped(s);
    assert Field2(s, 0) == 20 && Field2(s, 2) == 23 && Field2(s, 5) == 2 && Field2(s, 8) == 29;
    assert !IsLeapYear(2023);
  }

  /** One row of the table, without its key. */
  datatype Grant = Grant(username: string, expiry: string)

  /** What `list_tokens` shows. */
  datatype Listing = NoTokens | Rows(rows: seq<(string, Grant)>)

  /** The table, keyed by its primary key `token`. */
  class TokenTable {
    var tokens: map<string, Grant>

    /** `init_db` on a new file: an empty table. */
    constructor ()
      ensures tokens == map[]
    {
      tokens := map[];
    }

    /** `add_token`: a well-formed expiry inserts the row or replaces the
        token's old one; any other expiry leaves the table alone. */
    method AddToken(token: string, username: string, expiry: string) returns (added: bool)
      modifies this
      ensures added <==> ValidExpiry(expiry)
      ensures added ==> tokens == old(tokens)[token := Grant(username, expiry)]
      ensures !added ==> tokens == old(tokens)
    {
      if ParseExpiry(expiry).None? {
        return false;
      }
      tokens := tokens[token := Grant(username, expiry)];
      return true;
    }

    /** `delete_token`: removes the row if there is one. */
    method DeleteToken(token: string)
      modifies this
      ensures tokens == old(tokens) - {token}
    {
      tokens := tokens - {token};
    }

    /** `list_tokens`: "No tokens found." for an empty table, otherwise one
        row per token, each with its own username and expiry. The order of
        the rows is not fixed. */
    method ListTokens() returns (r: Listing)
      ensures r.NoTokens? <==> tokens == map[]
      ensures r.Rows? ==> |r.rows| == |tokens|
      ensures r.Rows? ==> forall i :: 0 <= i < |r.rows| ==> r.rows[i].0 in tokens && tokens[r.rows[i].0] == r.rows[i].1
      ensures r.Rows? ==> forall t :: t in tokens ==> exists i :: 0 <= i < |r.rows| && r.rows[i].0 == t
    {
      if tokens == map[] {
        return NoTokens;
      }
      var rows: seq<(string, Grant)> := [];
      var remaining := tokens.Keys;
      while remaining != {}
        invariant remaining <= tokens.Keys
        invariant |rows| + |remaining| == |tokens|
        invariant forall i :: 0 <= i < |rows| ==> rows[i].0 in tokens && rows[i].0 !in remaining && tokens[rows[i].0] == rows[i].1
        invariant forall t :: t in tokens ==> t in remaining || exists i :: 0 <= i < |rows| && rows[i].0 == t
        decreases |remaining|
      {
        var t :| t in remaining;
        ghost var before := rows;
        rows := rows + [(t, tokens[t])];
        remaining := remaining - {t};
        forall u | u in tokens
          ensures u in remaining || exists i :: 0 <= i < |rows| && rows[i].0 == u
        {
          if u == t {
            assert rows[|rows| - 1].0 == u;
          } else if u !in remaining {
            var i :| 0 <= i < |before| && before[i].0 == u;
            assert rows[i].0 == u;
          }
        }
      }
      return Rows(rows);
    }
  }
}
