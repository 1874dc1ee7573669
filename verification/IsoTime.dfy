/** isoformat of UTC instants: the order of the text is the order of the time. */
module IsoTime {
  import opened Base
  import opened CatalogSchema
  import opened CatalogSpec
  import opened Ordering
  import opened IndexDocuments
  import opened CanonicalJson
  import JsonReader

  datatype Utc = Utc(year: nat, month: nat, day: nat, hour: nat, minute: nat, second: nat, micro: nat)

  predicate Valid(u: Utc) {
    u.year < 10000 && u.month < 13 && u.day < 32 && u.hour < 24 && u.minute < 60 && u.second < 60 && u.micro < 1000000
  }

  /** n in w digits, and what follows. */
  function Put(n: nat, w: nat, rest: string): string
    decreases w
  {
    if w == 0 then rest else Put(n / 10, w - 1, [Digit(n % 10)] + rest)
  }

  /** The microseconds are left out when they are zero. */
  function Fraction(micro: nat): string {
    if micro == 0 then "+00:00" else "." + Put(micro, 6, "+00:00")
  }

  function Clock(u: Utc): string {
    Put(u.hour, 2, ":" + Put(u.minute, 2, ":" + Put(u.second, 2, Fraction(u.micro))))
  }

  /** datetime.isoformat. */
  function Text(u: Utc): string {
    Put(u.year, 4, "-" + Put(u.month, 2, "-" + Put(u.day, 2, "T" + Clock(u))))
  }

  /** A numbering of instants in the order in which datetime compares them: field by field. */
  function Number(u: Utc): Time {
    DayNumber(u) * 86400000000 + ClockNumber(u)
  }

  function DayNumber(u: Utc): nat {
    (u.year * 13 + u.month) * 32 + u.day
  }

  function ClockNumber(u: Utc): nat {
    ((u.hour * 60 + u.minute) * 60 + u.second) * 1000000 + u.micro
  }

  // ---- what the text says

  /** The number that a run of digits says. */
  function ValueOf(s: string): Option<nat> {
    var r := JsonReader.ReadDigits(s, 0);
    if s != "" && r.Got? && r.rest == "" then Some(r.value) else None
  }

  lemma {:induction false} PutThen(n: nat, w: nat, rest: string)
    ensures Put(n, w, rest) == Put(n, w, "") + rest && |Put(n, w, "")| == w
    decreases w
  {
    if w > 0 {
      var d := [Digit(n % 10)];
      PutThen(n / 10, w - 1, d + rest);
      PutThen(n / 10, w - 1, d + "");
      assert d + "" == d;
      assert Put(n / 10, w - 1, "") + (d + rest) == Put(n / 10, w - 1, "") + d + rest;
    }
  }

  lemma {:induction false} PutReads(n: nat, w: nat, rest: string)
    requires n < Power(w)
    ensures JsonReader.ReadDigits(Put(n, w, rest), 0) == JsonReader.ReadDigits(rest, n)
    decreases w
  {
    if w > 0 {
      var d := [Digit(n % 10)] + rest;
      PutReads(n / 10, w - 1, d);
      assert d[0] == Digit(n % 10) && d[1..] == rest && 10 * (n / 10) + n % 10 == n;
    }
  }

  /** w digits that say n. */
  predicate Says(s: string, n: nat, w: nat) {
    |s| == w && ValueOf(s) == Some(n)
  }

  lemma PutSays(n: nat, w: nat, rest: string) returns (digits: string)
    requires 0 < w && n < Power(w)
    ensures Put(n, w, rest) == digits + rest && Says(digits, n, w)
  {
    hide Put, Power;
    digits := Put(n, w, "");
    PutReads(n, w, "");
    PutThen(n, w, rest);
  }

  lemma Regrouped(
    year: string, month: string, day: string, hour: string, minute: string, second: string, micro: string, zone: string)
    ensures
      year + ("-" + (month + ("-" + (day + ("T" + (hour + (":" + (minute + (":" + (second + (micro + zone))))))))))) ==
      year + "-" + month + "-" + day + "T" + hour + ":" + minute + ":" + second + micro + zone
  {
  }

  lemma FractionSays(micro: nat) returns (field: string)
    requires micro < 1000000
    ensures Fraction(micro) == field + "+00:00"
    ensures if micro == 0 then field == "" else field != "" && field[0] == '.' && Says(field[1..], micro, 6)
  {
    hide Put, Power, Says;
    Powers();
    if micro == 0 {
      field := "";
      assert field + "+00:00" == "+00:00";
    } else {
      var digits := PutSays(micro, 6, "+00:00");
      field := "." + digits;
      assert field[1..] == digits && field + "+00:00" == "." + (digits + "+00:00");
    }
  }

  /** YYYY-MM-DDTHH:MM:SS+00:00, with six digits of microseconds behind a point exactly if they are not zero. */
  lemma TextSaysInstant(u: Utc) returns (fields: seq<string>)
    requires Valid(u)
    ensures |fields| == 7
    ensures Text(u) ==
              fields[0] + "-" + fields[1] + "-" + fields[2] + "T" + fields[3] + ":" + fields[4] + ":" + fields[5]
              + fields[6] + "+00:00"
    ensures Says(fields[0], u.year, 4) && Says(fields[1], u.month, 2) && Says(fields[2], u.day, 2)
    ensures Says(fields[3], u.hour, 2) && Says(fields[4], u.minute, 2) && Says(fields[5], u.second, 2)
    ensures if u.micro == 0 then fields[6] == "" else fields[6] != "" && fields[6][0] == '.' && Says(fields[6][1..], u.micro, 6)
  {
    hide Put, Power, Says, Fraction;
    Powers();
    var micro := FractionSays(u.micro);
    var tail := Fraction(u.micro);
    var second := PutSays(u.second, 2, tail);
    var minute := PutSays(u.minute, 2, ":" + (second + tail));
    var hour := PutSays(u.hour, 2, ":" + (minute + (":" + (second + tail))));
    var clock := hour + (":" + (minute + (":" + (second + tail))));
    var day := PutSays(u.day, 2, "T" + clock);
    var month := PutSays(u.month, 2, "-" + (day + ("T" + clock)));
    var year := PutSays(u.year, 4, "-" + (month + ("-" + (day + ("T" + clock)))));
    Regrouped(year, month, day, hour, minute, second, micro, "+00:00");
    fields := [year, month, day, hour, minute, second, micro];
  }

  // ---- order

  function Power(w: nat): nat {
    if w == 0 then 1 else 10 * Power(w - 1)
  }

  lemma HeadDecides(c: char, d: char, x: string, y: string)
    ensures TextLess([c] + x, [d] + y) <==> c < d || (c == d && TextLess(x, y))
  {
    assert ([c] + x)[1..] == x && ([d] + y)[1..] == y;
  }

  lemma {:induction false} PutOrder(m: nat, n: nat, w: nat, x: string, y: string)
    requires m < Power(w) && n < Power(w)
    ensures TextLess(Put(m, w, x), Put(n, w, y)) <==> m < n || (m == n && TextLess(x, y))
    decreases w
  {
    if w > 0 {
      PutOrder(m / 10, n / 10, w - 1, [Digit(m % 10)] + x, [Digit(n % 10)] + y);
      HeadDecides(Digit(m % 10), Digit(n % 10), x, y);
    }
  }

  lemma Powers()
    ensures Power(2) == 100 && Power(4) == 10000 && Power(6) == 1000000
  {
    assert Power(1) == 10 && Power(3) == 1000 && Power(5) == 100000;
  }

  lemma SameHead(c: string, x: string, y: string)
    requires |c| == 1
    ensures TextLess(c + x, c + y) <==> TextLess(x, y)
  {
    assert c == [c[0]];
    HeadDecides(c[0], c[0], x, y);
  }

  /** "+00:00" sorts before any fraction. */
  lemma FractionOrder(a: nat, b: nat)
    requires a < 1000000 && b < 1000000
    ensures TextLess(Fraction(a), Fraction(b)) <==> a < b
  {
    hide Put, Power;
    Powers();
    var zone := "+00:00";
    if a != 0 && b != 0 {
      PutOrder(a, b, 6, zone, zone);
      SameHead(".", Put(a, 6, zone), Put(b, 6, zone));
      Irreflexive(zone);
    } else if a == 0 && b == 0 {
      Irreflexive(zone);
    } else {
      assert zone == ['+'] + "00:00";
      HeadDecides(if a == 0 then '+' else '.', if b == 0 then '+' else '.',
                  if a == 0 then "00:00" else Put(a, 6, zone), if b == 0 then "00:00" else Put(b, 6, zone));
      assert Fraction(a) == [if a == 0 then '+' else '.'] + if a == 0 then "00:00" else Put(a, 6, zone);
      assert Fraction(b) == [if b == 0 then '+' else '.'] + if b == 0 then "00:00" else Put(b, 6, zone);
    }
  }

  lemma Irreflexive(s: string)
    ensures !TextLess(s, s)
  {
    if TextLess(s, s) {
      TextAsymmetric(s, s);
    }
  }

  lemma ClockOrder(a: Utc, b: Utc)
    requires Valid(a) && Valid(b)
    ensures TextLess(Clock(a), Clock(b)) <==>
      || a.hour < b.hour
      || (a.hour == b.hour && a.minute < b.minute)
      || (a.hour == b.hour && a.minute == b.minute && a.second < b.second)
      || (a.hour == b.hour && a.minute == b.minute && a.second == b.second && a.micro < b.micro)
  {
    hide Put, Power, Fraction;
    Powers();
    var f, g := Fraction(a.micro), Fraction(b.micro);
    FractionOrder(a.micro, b.micro);
    PutOrder(a.second, b.second, 2, f, g);
    var s, t := Put(a.second, 2, f), Put(b.second, 2, g);
    SameHead(":", s, t);
    PutOrder(a.minute, b.minute, 2, ":" + s, ":" + t);
    SameHead(":", Put(a.minute, 2, ":" + s), Put(b.minute, 2, ":" + t));
    PutOrder(a.hour, b.hour, 2, ":" + Put(a.minute, 2, ":" + s), ":" + Put(b.minute, 2, ":" + t));
  }

  /** datetime compares field by field. */
  predicate Earlier(a: Utc, b: Utc) {
    || a.year < b.year
    || (a.year == b.year && a.month < b.month)
    || (a.year == b.year && a.month == b.month && a.day < b.day)
    || (a.year == b.year && a.month == b.month && a.day == b.day && TextLess(Clock(a), Clock(b)))
  }

  lemma TextIsEarlier(a: Utc, b: Utc)
    requires Valid(a) && Valid(b)
    ensures TextLess(Text(a), Text(b)) <==> Earlier(a, b)
  {
    hide Put, Power, Clock;
    Powers();
    var c, d := Clock(a), Clock(b);
    SameHead("T", c, d);
    PutOrder(a.day, b.day, 2, "T" + c, "T" + d);
    var s, t := Put(a.day, 2, "T" + c), Put(b.day, 2, "T" + d);
    SameHead("-", s, t);
    PutOrder(a.month, b.month, 2, "-" + s, "-" + t);
    SameHead("-", Put(a.month, 2, "-" + s), Put(b.month, 2, "-" + t));
    PutOrder(a.year, b.year, 4, "-" + Put(a.month, 2, "-" + s), "-" + Put(b.month, 2, "-" + t));
  }

  lemma Radix(a: nat, b: nat, r: nat, x: nat, y: nat)
    requires x < r && y < r
    ensures a * r + x < b * r + y <==> a < b || (a == b && x < y)
  {
    if a < b {
      assert (a + 1) * r <= b * r;
    } else if b < a {
      assert (b + 1) * r <= a * r;
    }
  }

  lemma ClockNumberOrder(a: Utc, b: Utc)
    requires Valid(a) && Valid(b)
    ensures ClockNumber(a) < 86400000000 && ClockNumber(b) < 86400000000
    ensures TextLess(Clock(a), Clock(b)) <==> ClockNumber(a) < ClockNumber(b)
  {
    hide Clock, TextLess;
    ClockOrder(a, b);
    var h, i := a.hour * 60 + a.minute, b.hour * 60 + b.minute;
    Radix(a.hour, b.hour, 60, a.minute, b.minute);
    var s, t := h * 60 + a.second, i * 60 + b.second;
    Radix(h, i, 60, a.second, b.second);
    Radix(s, t, 1000000, a.micro, b.micro);
  }

  lemma DayNumberOrder(a: Utc, b: Utc)
    requires Valid(a) && Valid(b)
    ensures DayNumber(a) < DayNumber(b) <==>
      || a.year < b.year
      || (a.year == b.year && a.month < b.month)
      || (a.year == b.year && a.month == b.month && a.day < b.day)
    ensures DayNumber(a) == DayNumber(b) <==> a.year == b.year && a.month == b.month && a.day == b.day
  {
    var y, z := a.year * 13 + a.month, b.year * 13 + b.month;
    Radix(a.year, b.year, 13, a.month, b.month);
    Radix(b.year, a.year, 13, b.month, a.month);
    Radix(y, z, 32, a.day, b.day);
    Radix(z, y, 32, b.day, a.day);
  }

  /** Text order is time order, with and without microseconds. */
  lemma TextOrderIsTimeOrder(a: Utc, b: Utc)
    requires Valid(a) && Valid(b)
    ensures TextLess(Text(a), Text(b)) <==> Number(a) < Number(b)
  {
    hide Text, Clock, TextLess, DayNumber, ClockNumber;
    TextIsEarlier(a, b);
    ClockNumberOrder(a, b);
    DayNumberOrder(a, b);
    Radix(DayNumber(a), DayNumber(b), 86400000000, ClockNumber(a), ClockNumber(b));
  }

  // ---- stored instants

  /** The instant with a number. */
  function Instant(t: Time): Utc {
    var seconds := t / 1000000;
    var minutes := seconds / 60;
    var hours := minutes / 60;
    var days := hours / 24;
    var months := days / 32;
    Utc(months / 13, months % 13, days % 32, hours % 24, minutes % 60, seconds % 60, t % 1000000)
  }

  predicate Storable(t: Time) {
    Instant(t).year < 10000
  }

  lemma InstantIsInverse(t: Time)
    ensures Number(Instant(t)) == t && (Storable(t) ==> Valid(Instant(t)))
  {
    var seconds := t / 1000000;
    var minutes := seconds / 60;
    var hours := minutes / 60;
    var days := hours / 24;
    var months := days / 32;
    assert t == seconds * 1000000 + t % 1000000 && seconds == minutes * 60 + seconds % 60;
    assert minutes == hours * 60 + minutes % 60 && hours == days * 24 + hours % 24;
    assert days == months * 32 + days % 32 && months == months / 13 * 13 + months % 13;
  }

  function Stored(t: Time): string {
    Text(Instant(t))
  }

  lemma StoredOrder(s: Time, t: Time)
    requires Storable(s) && Storable(t)
    ensures TextLess(Stored(s), Stored(t)) <==> s < t
  {
    hide Number, Text, Instant;
    InstantIsInverse(s);
    InstantIsInverse(t);
    TextOrderIsTimeOrder(Instant(s), Instant(t));
  }

  /** The order of the listing, on the stored text: ORDER BY observed_at DESC, id DESC. */
  predicate NoNewerText(x: Corpus, p: Id, o: Id)
    requires p in x.observations && o in x.observations
  {
    var s, t := Stored(x.observations[p].observedAt), Stored(x.observations[o].observedAt);
    TextLess(s, t) || (s == t && p <= o)
  }

  /** No observation of the version comes before this one in the listing. */
  ghost predicate FirstByText(x: Corpus, version: Id, o: Id) {
    o in ObservationsOf(x, version) && forall p :: p in ObservationsOf(x, version) ==> NoNewerText(x, p, o)
  }

  /** Choosing the newest observation by its stored text is choosing it by its instant. */
  lemma NewestByText(x: Corpus, version: Id, o: Id)
    requires ObservationsOf(x, version) != {}
    requires forall p :: p in ObservationsOf(x, version) ==> Storable(x.observations[p].observedAt)
    ensures FirstByText(x, version, o) <==> o == NewestObservation(x, version)
  {
    hide Stored, Storable, NewestObservation;
    var newest := NewestObservation(x, version);
    forall p, o | p in ObservationsOf(x, version) && o in ObservationsOf(x, version)
      ensures NoNewerText(x, p, o) <==> NoNewer(x, p, o)
    {
      var s, t := x.observations[p].observedAt, x.observations[o].observedAt;
      StoredOrder(s, t);
      StoredOrder(t, s);
      TextTotal(Stored(s), Stored(t));
      Irreflexive(Stored(s));
    }
  }

  // ---- interrupted runs

  /** list_interrupted_runs: running, and started before the cutoff by the order of the text. */
  function InterruptedRuns(g: Ingest, cutoff: Time): set<Id> {
    set r | r in g.runs && g.runs[r].status == Running && TextLess(Stored(g.runs[r].startedAt), Stored(cutoff))
  }

  /** The runs listed by text are exactly the ones that repair, which compares instants, would accept now. */
  lemma ListedIffRepairable(g: Ingest, cutoff: Time, at: Time, run: Id)
    requires Storable(cutoff) && forall r :: r in g.runs ==> Storable(g.runs[r].startedAt)
    ensures run in InterruptedRuns(g, cutoff) <==> Repairable(g, RepairCommand(run, cutoff, at))
  {
    hide Stored, Storable;
    if run in g.runs {
      StoredOrder(g.runs[run].startedAt, cutoff);
    }
  }

  /** A listed run that is still running when its repair comes is accepted then. */
  lemma ListedRunIsAccepted(g: Ingest, later: Ingest, cutoff: Time, at: Time, run: Id)
    requires Storable(cutoff) && forall r :: r in g.runs ==> Storable(g.runs[r].startedAt)
    requires run in InterruptedRuns(g, cutoff)
    requires run in later.runs && later.runs[run].status == Running && later.runs[run].startedAt == g.runs[run].startedAt
    ensures Repairable(later, RepairCommand(run, cutoff, at))
  {
    hide Stored, Storable;
    ListedIffRepairable(g, cutoff, at, run);
  }
}
