/** The rental details page: the countdown to the end of the 12-hour
    cancellation window, its "HH:MM:SS" rendering, the cancel-button gate,
    the progress bar and the local status change after a cancel. The clock
    reading `now` is a parameter; the once-a-second re-render is not
    modelled. */
module RentalDetails {
  import opened Base
  import opened TimeWindow
  import opened ClientRentals
  import Decimal
  import RentalSchema
  import RentalController

  // ---------------------------------------------------------------------
  // msToHms

  /** A whole number of seconds split into days, hours, minutes, seconds. */
  datatype Clock = Clock(days: nat, hours: nat, minutes: nat, seconds: nat)

  function Split(totalSeconds: nat): (c: Clock)
    ensures c.hours < 24 && c.minutes < 60 && c.seconds < 60
    ensures c.days * 86400 + c.hours * 3600 + c.minutes * 60 + c.seconds == totalSeconds
  {
    var t := totalSeconds;
    assert t % 86400 == (t % 86400) / 3600 * 3600 + t % 3600 by {
      assert t == (t / 86400) * 86400 + t % 86400;
      assert t % 86400 == ((t % 86400) / 3600) * 3600 + (t % 86400) % 3600;
      assert (t % 86400) % 3600 == t % 3600 by {
        assert t == ((t / 86400) * 24 + (t % 86400) / 3600) * 3600 + (t % 86400) % 3600;
      }
    }
    Clock(t / (3600 * 24), (t % (3600 * 24)) / 3600, (t % 3600) / 60, t % 60)
  }

  function Clock8(c: Clock): string
    requires c.hours < 100 && c.minutes < 100 && c.seconds < 100
  {
    Decimal.PadTwo(c.hours) + ":" + Decimal.PadTwo(c.minutes) + ":" + Decimal.PadTwo(c.seconds)
  }

  /** `msToHms`: "00:00:00" for no time left, otherwise the whole seconds
      as "HH:MM:SS", prefixed by "<days>d " when at least a day remains. */
  function MsToHms(ms: int): (s: string)
    ensures ms <= 0 ==> s == "00:00:00"
    ensures 0 < ms < 86400 * 1000 ==> |s| == 8
    ensures ms >= 86400 * 1000 ==> |s| > 10 && s[|s| - 10] == 'd'
  {
    if ms <= 0 then "00:00:00"
    else
      var c := Split(ms / 1000);
      var clock := Clock8(c);
      if c.days > 0 then Decimal.Show(c.days) + "d " + clock else clock
  }

  /** Reads "HH:MM:SS" back into seconds. */
  function ParseClock(s: string): Option<nat> {
    if |s| == 8 && s[2] == ':' && s[5] == ':'
       && Decimal.AllDigits(s[0..2]) && Decimal.AllDigits(s[3..5]) && Decimal.AllDigits(s[6..8])
    then Some(Decimal.Parse(s[0..2]) * 3600 + Decimal.Parse(s[3..5]) * 60 + Decimal.Parse(s[6..8]))
    else None
  }

  /** Reads a countdown string, with or without its day prefix, back into
      seconds. */
  function ParseHms(s: string): Option<nat> {
    if |s| == 8 then ParseClock(s)
    else if |s| > 10 && s[|s| - 10] == 'd' && s[|s| - 9] == ' '
            && Decimal.AllDigits(s[..|s| - 10]) then
      match ParseClock(s[|s| - 8..])
      case None => None
      case Some(t) => Some(Decimal.Parse(s[..|s| - 10]) * 86400 + t)
    else None
  }

  lemma ParseClock8(c: Clock)
    requires c.hours < 100 && c.minutes < 100 && c.seconds < 100
    ensures ParseClock(Clock8(c)) == Some(c.hours * 3600 + c.minutes * 60 + c.seconds)
  {
    var s := Clock8(c);
    assert s[0..2] == Decimal.PadTwo(c.hours);
    assert s[3..5] == Decimal.PadTwo(c.minutes);
    assert s[6..8] == Decimal.PadTwo(c.seconds);
  }

  /** A clock string behind a day count and "d " reads back as both. */
  lemma ParseWithDays(days: nat, clock: string, t: nat)
    requires |clock| == 8 && ParseClock(clock) == Some(t)
    ensures ParseHms(Decimal.Show(days) + "d " + clock) == Some(days * 86400 + t)
  {
    var d := Decimal.Show(days);
    var s := d + "d " + clock;
    assert s[..|s| - 10] == d;
    assert s[|s| - 8..] == clock;
    Decimal.ParseShow(days);
  }

  /** The zero clock reads back as 0. */
  lemma ParseZero()
    ensures ParseHms("00:00:00") == Some(0)
  {
    var z := "00:00:00";
    assert z[0..2] == z[3..5] == z[6..8] == "00";
    assert "00"[..1] == "0" && "0"[..0] == [];
    assert Decimal.Parse("00") == 0;
  }

  /** The rendering loses nothing but the milliseconds: reading it back
      gives the whole seconds that were left (0 when none). */
  lemma HmsRoundTrip(ms: int)
    ensures ParseHms(MsToHms(ms)) == Some(if ms <= 0 then 0 else ms / 1000)
  {
    if ms > 0 {
      var c := Split(ms / 1000);
      ParseClock8(c);
      if c.days > 0 {
        ParseWithDays(c.days, Clock8(c), c.hours * 3600 + c.minutes * 60 + c.seconds);
      }
    } else {
      ParseZero();
    }
  }

  // ---------------------------------------------------------------------
  // Countdown, cancel gate, progress

  /** The window's reference point: the creation time, falling back to
      the start date when the record has none. */
  function WindowStart(r: ClientRental): int {
    r.createdAt.GetOr(r.startDate)
  }

  /** The countdown: milliseconds left of the 12-hour window, negative once
      it has passed; absent while no rental is loaded. */
  function Countdown(rental: Option<ClientRental>, now: int): (c: Option<int>)
    ensures c.Some? <==> rental.Some?
    ensures rental.Some? ==> (c.value > 0 <==> now < WindowStart(rental.value) + TwelveHoursMs)
    ensures rental.Some? ==> c.value + (now - WindowStart(rental.value)) == TwelveHoursMs
  {
    match rental
    case None => None
    case Some(r) => Some(TwelveHoursMs - (now - WindowStart(r)))
  }

  /** `canCancel`: an active rental whose countdown is still positive; an
      absent countdown counts as 0. */
  function CanCancel(rental: Option<ClientRental>, countdown: Option<int>): (b: bool)
    ensures b <==> rental.Some? && rental.value.status == "active"
                   && countdown.Some? && countdown.value > 0
  {
    if rental.None? then false
    else if rental.value.status != "active" then false
    else countdown.GetOr(0) > 0
  }

  /** `cancelProgress`: the elapsed share of the window in percent, clamped
      to [0, 100]; 0 while no rental is loaded. */
  function CancelProgress(rental: Option<ClientRental>, now: int): (p: real)
    ensures 0.0 <= p <= 100.0
    ensures rental.Some? ==>
              (p == 100.0 <==> now - WindowStart(rental.value) >= TwelveHoursMs)
    ensures rental.Some? ==> (p == 0.0 <==> now - WindowStart(rental.value) <= 0)
    ensures rental.None? ==> p == 0.0
  {
    match rental
    case None => 0.0
    case Some(r) =>
      var elapsed := now - WindowStart(r);
      var percent := (elapsed as real / TwelveHoursMs as real) * 100.0;
      assert percent >= 100.0 <==> elapsed >= TwelveHoursMs;
      assert percent <= 0.0 <==> elapsed <= 0;
      var low := if percent > 0.0 then percent else 0.0;
      if low < 100.0 then low else 100.0
  }

  /** The local update after a successful cancel. */
  function MarkCancelled(rental: Option<ClientRental>): (r: Option<ClientRental>)
    ensures r.Some? <==> rental.Some?
    ensures r.Some? ==> r.value.status == "cancelled"
                        && r.value.(status := rental.value.status) == rental.value
  {
    match rental
    case None => None
    case Some(x) => Some(x.(status := "cancelled"))
  }

  /** After the local cancel the button is disabled, whatever the clock. */
  lemma CancelledCannotCancelAgain(rental: Option<ClientRental>, countdown: Option<int>)
    ensures !CanCancel(MarkCancelled(rental), countdown)
  {
  }

  // ---------------------------------------------------------------------
  // Agreement with the server

  /** When the page enables the cancel button for a rental fetched from
      the server, the server's cancel accepts at that same instant. */
  lemma ClientGateImpliesServerAccepts(store: RentalSchema.RentalStore, requester: string,
                                       id: string, now: int)
    requires RentalSchema.HasId(store, id)
    requires var r := FromServer(store[RentalSchema.IndexOf(store, id).value]);
             CanCancel(Some(r), Countdown(Some(r), now))
    ensures RentalController.CancelRental(store, requester, now, id).reply.Ok?
  {
  }

  /** The page is stricter than the server at the boundary: exactly twelve
      hours after creation the button is disabled, yet the server would
      still cancel. */
  lemma ClientStricterAtBoundary(store: RentalSchema.RentalStore, requester: string, id: string)
    requires RentalSchema.HasId(store, id)
    ensures var r := store[RentalSchema.IndexOf(store, id).value];
            var now := r.createdAt + TwelveHoursMs;
            && !CanCancel(Some(FromServer(r)), Countdown(Some(FromServer(r)), now))
            && RentalController.CancelRental(store, requester, now, id).reply.Ok?
  {
  }
}
