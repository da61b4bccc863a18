/** The policy verifier's reading of an expiry timestamp: seconds since 1970 of the UTC form YYYY-MM-DDTHH:MM:SSZ
    (section 5.6 of RFC 3339), or 0 when the timestamp is not one. */
module PolicyExpiry {

  predicate Digit(c: char) { '0' <= c <= '9' }

  function Value(c: char): int { c as int - '0' as int }

  /** A digit string as a number. */
  function Number(digits: string): int {
    if digits == "" then 0 else Number(digits[..|digits| - 1]) * 10 + Value(digits[|digits| - 1])
  }

  predicate Separator(k: nat) { k == 4 || k == 7 || k == 10 || k == 13 || k == 16 || k == 19 }

  predicate Shaped(value: string) {
    && |value| == 20
    && value[4] == '-' && value[7] == '-' && value[10] == 'T' && value[13] == ':' && value[16] == ':' &&
       value[19] == 'Z'
    && forall k :: 0 <= k < 20 && !Separator(k) ==> Digit(value[k])
  }

  predicate Leap(y: int) { y % 4 == 0 && (y % 100 != 0 || y % 400 == 0) }

  function MonthLength(y: int, m: int): int {
    if m == 2 then (if Leap(y) then 29 else 28)
    else if m == 4 || m == 6 || m == 9 || m == 11 then 30 else 31
  }

  datatype Stamp = Stamp(year: int, month: int, day: int, hour: int, minute: int, second: int) {
    predicate Valid() {
      && 1970 <= year && 1 <= month <= 12 && 1 <= day <= MonthLength(year, month)
      && 0 <= hour <= 23 && 0 <= minute <= 59 && 0 <= second <= 59
    }

    /** The Gregorian calendar's closed form: no loop over years or months. */
    function Seconds(): int {
      ((DaysToYear(year) + DaysToMonth(year, month) + day - 1) * 24 + hour) * 3600 + minute * 60 + second
    }
  }

  function DaysToYear(y: int): int { 365 * (y - 1970) + (y - 1) / 4 - (y - 1) / 100 + (y - 1) / 400 - 477 }

  function DaysToMonth(y: int, m: int): int {
    (367 * m - 362) / 12 - (if m <= 2 then 0 else if Leap(y) then 1 else 2)
  }

  function Read(value: string): Stamp
    requires Shaped(value)
  {
    Stamp(Number(value[0..4]), Number(value[5..7]), Number(value[8..10]),
          Number(value[11..13]), Number(value[14..16]), Number(value[17..19]))
  }

  predicate Accepted(value: string) { Shaped(value) && Read(value).Valid() }

  lemma YearStep(y: int)
    ensures DaysToYear(y + 1) == DaysToYear(y) + if Leap(y) then 366 else 365
  {
    assert y / 4 - (y - 1) / 4 == if y % 4 == 0 then 1 else 0;
    assert y / 100 - (y - 1) / 100 == if y % 100 == 0 then 1 else 0;
    assert y / 400 - (y - 1) / 400 == if y % 400 == 0 then 1 else 0;
  }

  lemma MonthStep(y: int, m: int)
    requires 1 <= m <= 12
    ensures DaysToMonth(y, 1) == 0
    ensures DaysToMonth(y, m + 1) == DaysToMonth(y, m) + MonthLength(y, m)
  {
  }

  lemma YearsGrow(y: int, z: int)
    requires y <= z
    ensures DaysToYear(y) <= DaysToYear(z)
    decreases z - y
  {
    if y < z {
      YearsGrow(y, z - 1);
      YearStep(z - 1);
    }
  }

  /** Every day of a year lies before the next year, and every day of a month before the next month. */
  lemma DaysInside(y: int, m: int, n: int)
    requires 1 <= m < n <= 12
    ensures 0 <= DaysToMonth(y, m)
    ensures DaysToMonth(y, m) + MonthLength(y, m) <= DaysToMonth(y, n)
    ensures DaysToMonth(y, n) + MonthLength(y, n) <= (if Leap(y) then 366 else 365)
  {
  }

  function Earlier(a: Stamp, b: Stamp): bool {
    if a.year != b.year then a.year < b.year
    else if a.month != b.month then a.month < b.month
    else if a.day != b.day then a.day < b.day
    else if a.hour != b.hour then a.hour < b.hour
    else if a.minute != b.minute then a.minute < b.minute
    else a.second < b.second
  }

  function DayNumber(a: Stamp): int { DaysToYear(a.year) + DaysToMonth(a.year, a.month) + a.day - 1 }

  lemma EarlierDay(a: Stamp, b: Stamp)
    requires a.Valid() && b.Valid() && Earlier(a, b)
    ensures DayNumber(a) < DayNumber(b) || (a.year == b.year && a.month == b.month && a.day == b.day)
  {
    hide DaysToYear, DaysToMonth;
    if a.year < b.year {
      YearsGrow(a.year + 1, b.year);
      YearStep(a.year);
      DaysInside(a.year, if a.month < 12 then a.month else 1, 12);
      MonthStep(b.year, 1);
      if 1 < b.month { DaysInside(b.year, 1, b.month); }
    } else if a.month < b.month {
      DaysInside(a.year, a.month, b.month);
    }
  }

  lemma EarlierSeconds(a: Stamp, b: Stamp)
    requires a.Valid() && b.Valid() && Earlier(a, b)
    ensures a.Seconds() < b.Seconds()
  {
    EarlierDay(a, b);
    assert a.Seconds() == DayNumber(a) * 86400 + a.hour * 3600 + a.minute * 60 + a.second;
    assert b.Seconds() == DayNumber(b) * 86400 + b.hour * 3600 + b.minute * 60 + b.second;
  }

  // ----- string order -----

  predicate Before(a: string, b: string, k: nat) {
    k < |a| && k < |b| && a[..k] == b[..k] && a[k] < b[k]
  }

  lemma {:induction false} NumberBefore(a: string, b: string, k: nat)
    requires |a| == |b| && Before(a, b, k)
    requires forall i :: 0 <= i < |a| ==> Digit(a[i]) && Digit(b[i])
    ensures Number(a) < Number(b)
    decreases |a|
  {
    var n := |a| - 1;
    if k < n {
      assert a[..n][..k] == a[..k] && b[..n][..k] == b[..k] && a[..n][k] == a[k] && b[..n][k] == b[k];
      NumberBefore(a[..n], b[..n], k);
    } else {
      assert a[..n] == b[..n];
    }
  }

  lemma SameBefore(a: string, b: string, k: nat)
    requires Before(a, b, k)
    ensures forall i :: 0 <= i < k ==> a[i] == b[i]
  {
    forall i | 0 <= i < k ensures a[i] == b[i] {
      assert a[..k][i] == b[..k][i];
    }
  }

  lemma FieldBefore(a: string, b: string, k: nat, lo: nat, hi: nat)
    requires |a| == |b| && Before(a, b, k) && lo <= k < hi <= |a|
    requires forall i :: lo <= i < hi ==> Digit(a[i]) && Digit(b[i])
    ensures Number(a[lo..hi]) < Number(b[lo..hi])
  {
    SameBefore(a, b, k);
    var u, v := a[lo..hi], b[lo..hi];
    assert forall i :: 0 <= i < hi - lo ==> u[i] == a[lo + i] && v[i] == b[lo + i];
    var p, q := u[..k - lo], v[..k - lo];
    assert forall i :: 0 <= i < k - lo ==> p[i] == u[i] == v[i] == q[i];
    assert p == q && u[k - lo] < v[k - lo];
    NumberBefore(u, v, k - lo);
  }

  lemma FieldsAgree(a: string, b: string, k: nat, lo: nat, hi: nat)
    requires |a| == |b| && Before(a, b, k) && lo <= hi <= k
    ensures a[lo..hi] == b[lo..hi]
  {
    SameBefore(a, b, k);
    var u, v := a[lo..hi], b[lo..hi];
    assert forall i :: 0 <= i < hi - lo ==> u[i] == a[lo + i] == b[lo + i] == v[i];
    assert u == v;
  }

  /** An earlier string is an earlier moment. */
  lemma StringOrderIsTimeOrder(a: string, b: string, k: nat)
    requires Accepted(a) && Accepted(b) && Before(a, b, k)
    ensures Read(a).Seconds() < Read(b).Seconds()
  {
    if 4 <= k { FieldsAgree(a, b, k, 0, 4); } else { FieldBefore(a, b, k, 0, 4); }
    if 7 <= k { FieldsAgree(a, b, k, 5, 7); } else if 5 <= k { FieldBefore(a, b, k, 5, 7); }
    if 10 <= k { FieldsAgree(a, b, k, 8, 10); } else if 8 <= k { FieldBefore(a, b, k, 8, 10); }
    if 13 <= k { FieldsAgree(a, b, k, 11, 13); } else if 11 <= k { FieldBefore(a, b, k, 11, 13); }
    if 16 <= k { FieldsAgree(a, b, k, 14, 16); } else if 14 <= k { FieldBefore(a, b, k, 14, 16); }
    if 17 <= k { FieldBefore(a, b, k, 17, 19); }
    EarlierSeconds(Read(a), Read(b));
  }

  lemma {:induction false} FirstDifference(a: string, b: string) returns (k: nat)
    requires |a| == |b| && a != b
    ensures Before(a, b, k) || Before(b, a, k)
  {
    k := 0;
    assert a[..|a|] == a && b[..|b|] == b;
    while a[k] == b[k]
      invariant k < |a| && a[..k] == b[..k]
      decreases |a| - k
    {
      assert a[..k + 1] == a[..k] + [a[k]] && b[..k + 1] == b[..k] + [b[k]];
      k := k + 1;
    }
  }

  ghost predicate StringLess(a: string, b: string) { exists k :: Before(a, b, k) }

  /** Among accepted timestamps, string order and time order are the same order, and no two share a moment. */
  lemma OrderPreserved(a: string, b: string)
    requires Accepted(a) && Accepted(b)
    ensures StringLess(a, b) <==> Read(a).Seconds() < Read(b).Seconds()
    ensures a == b <==> Read(a).Seconds() == Read(b).Seconds()
  {
    if StringLess(a, b) {
      var k :| Before(a, b, k);
      StringOrderIsTimeOrder(a, b, k);
    }
    if a != b {
      var k := FirstDifference(a, b);
      if Before(b, a, k) {
        StringOrderIsTimeOrder(b, a, k);
      }
    }
  }

  const EPOCH := "1970-01-01T00:00:00Z"

  lemma TwoDigits(a: char, b: char)
    ensures Number([a, b]) == Value(a) * 10 + Value(b)
  {
    assert [a, b][..1] == [a];
    assert [a][..0] == [];
    assert Number([a]) == Number([a][..0]) * 10 + Value(a);
  }

  lemma FourDigits(a: char, b: char, c: char, d: char)
    ensures Number([a, b, c, d]) == ((Value(a) * 10 + Value(b)) * 10 + Value(c)) * 10 + Value(d)
  {
    assert [a, b, c, d][..3] == [a, b, c] && [a, b, c][..2] == [a, b];
    TwoDigits(a, b);
  }

  /** What a timestamp of the form says, digit by digit. */
  lemma ReadDigits(v: string)
    requires Shaped(v)
    ensures Read(v) == Stamp(((Value(v[0]) * 10 + Value(v[1])) * 10 + Value(v[2])) * 10 + Value(v[3]),
                             Value(v[5]) * 10 + Value(v[6]), Value(v[8]) * 10 + Value(v[9]),
                             Value(v[11]) * 10 + Value(v[12]), Value(v[14]) * 10 + Value(v[15]),
                             Value(v[17]) * 10 + Value(v[18]))
  {
    hide Number, Value;
    FourDigits(v[0], v[1], v[2], v[3]);
    TwoDigits(v[5], v[6]);
    TwoDigits(v[8], v[9]);
    TwoDigits(v[11], v[12]);
    TwoDigits(v[14], v[15]);
    TwoDigits(v[17], v[18]);
    assert v[0..4] == [v[0], v[1], v[2], v[3]];
    assert v[5..7] == [v[5], v[6]] && v[8..10] == [v[8], v[9]] && v[11..13] == [v[11], v[12]];
    assert v[14..16] == [v[14], v[15]] && v[17..19] == [v[17], v[18]];
  }

  /** The accepted timestamps are those of the form that name a moment of the Gregorian calendar since 1970. */
  lemma AcceptedTimestamps(v: string)
    ensures Accepted(v) <==>
            && |v| == 20
            && (forall k :: 0 <= k < 20 && k !in {4, 7, 10, 13, 16, 19} ==> '0' <= v[k] <= '9')
            && v[4] == v[7] == '-' && v[10] == 'T' && v[13] == v[16] == ':' && v[19] == 'Z'
            && var s := Read(v);
            && 1970 <= s.year && s.month in {1, 2, 3, 4, 5, 6, 7, 8, 9, 10, 11, 12}
            && 1 <= s.day <= (if s.month in {4, 6, 9, 11} then 30 else if s.month != 2 then 31
                              else if s.year % 4 == 0 && (s.year % 100 != 0 || s.year % 400 == 0) then 29 else 28)
            && s.hour <= 23 && s.minute <= 59 && s.second <= 59
  {
    if Shaped(v) {
      ReadDigits(v);
    }
    hide Read;
  }

  lemma EpochReads()
    ensures Shaped(EPOCH) && Read(EPOCH) == Stamp(1970, 1, 1, 0, 0, 0)
  {
    hide Number;
    FourDigits('1', '9', '7', '0');
    TwoDigits('0', '1');
    TwoDigits('0', '0');
    assert EPOCH[0..4] == ['1', '9', '7', '0'];
    assert EPOCH[5..7] == EPOCH[8..10] == ['0', '1'];
    assert EPOCH[11..13] == EPOCH[14..16] == EPOCH[17..19] == ['0', '0'];
  }

  lemma EpochIsZero()
    requires Shaped(EPOCH) && Read(EPOCH) == Stamp(1970, 1, 1, 0, 0, 0)
    ensures Accepted(EPOCH) && Read(EPOCH).Seconds() == 0
  {
    hide Read, Shaped;
  }

  /** Zero stands for a refused timestamp and for one accepted timestamp, the epoch itself. */
  lemma ZeroIsTheEpoch(value: string)
    requires Accepted(value)
    ensures Read(value).Seconds() == 0 <==> value == EPOCH
  {
    hide Read, Shaped, Stamp.Valid, Stamp.Seconds, StringLess;
    EpochReads();
    EpochIsZero();
    OrderPreserved(value, EPOCH);
  }

  // ----- the algorithm -----

  method ReadNumber(value: string, start: nat, length: nat) returns (out: int)
    requires start + length <= |value|
    ensures out == Number(value[start..start + length])
  {
    out := 0;
    for i := start to start + length
      invariant out == Number(value[start..i])
    {
      ghost var read := value[start..i + 1];
      assert read[..i - start] == value[start..i] && read[i - start] == value[i];
      out := out * 10 + Value(value[i]);
    }
  }

  method CheckShape(value: string) returns (ok: bool)
    ensures ok <==> Shaped(value)
  {
    if |value| != 20 || value[4] != '-' || value[7] != '-' || value[10] != 'T' ||
       value[13] != ':' || value[16] != ':' || value[19] != 'Z' {
      return false;
    }
    for i := 0 to |value|
      invariant forall k :: 0 <= k < i && !Separator(k) ==> Digit(value[k])
    {
      if Separator(i) {
        continue;
      }
      if !Digit(value[i]) {
        return false;
      }
    }
    return true;
  }

  /** The loops over years and months compute the closed form. */
  method Expiry(value: string) returns (seconds: int)
    ensures seconds == if Accepted(value) then Read(value).Seconds() else 0
  {
    var shaped := CheckShape(value);
    if !shaped {
      return 0;
    }
    var y := ReadNumber(value, 0, 4);
    var m := ReadNumber(value, 5, 2);
    var d := ReadNumber(value, 8, 2);
    var h := ReadNumber(value, 11, 2);
    var minute := ReadNumber(value, 14, 2);
    var second := ReadNumber(value, 17, 2);
    NonNegative(value, 11, 13);
    NonNegative(value, 14, 16);
    NonNegative(value, 17, 19);
    if y < 1970 || m < 1 || m > 12 || h > 23 || minute > 59 || second > 59 {
      return 0;
    }
    var months := [31, 28, 31, 30, 31, 30, 31, 31, 30, 31, 30, 31];
    if Leap(y) {
      months := months[1 := 29];
    }
    assert forall k :: 1 <= k <= 12 ==> months[k - 1] == MonthLength(y, k);
    if d < 1 || d > months[m - 1] {
      return 0;
    }
    var days := d - 1;
    for year := 1970 to y
      invariant days == d - 1 + DaysToYear(year)
    {
      YearStep(year);
      days := days + if Leap(year) then 366 else 365;
    }
    MonthStep(y, 1);
    for month := 1 to m
      invariant days == d - 1 + DaysToYear(y) + DaysToMonth(y, month)
    {
      MonthStep(y, month);
      days := days + months[month - 1];
    }
    seconds := ((days * 24 + h) * 60 + minute) * 60 + second;
  }

  lemma {:induction false} NonNegative(value: string, lo: nat, hi: nat)
    requires lo <= hi <= |value| && forall k :: lo <= k < hi ==> Digit(value[k])
    ensures 0 <= Number(value[lo..hi])
    decreases hi - lo
  {
    if lo < hi {
      var read := value[lo..hi];
      assert read[..hi - lo - 1] == value[lo..hi - 1] && read[hi - lo - 1] == value[hi - 1];
      NonNegative(value, lo, hi - 1);
    }
  }
}
