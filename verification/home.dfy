/** The home page hero: a counter that cycles through the three hero
    slides on a timer. */
module Home {

  /** The number of hero slides. */
  const HeroSlides := 3

  /** One timer tick: 2 goes back to 0, anything else moves up by one. */
  function HeroStep(count: int): (c: int)
    ensures 0 <= count < HeroSlides ==> 0 <= c < HeroSlides
    ensures 0 <= count < HeroSlides ==> c == (count + 1) % HeroSlides
  {
    if count == 2 then 0 else count + 1
  }

  /** The counter after `ticks` ticks from its starting value 0. */
  function HeroAfter(ticks: nat): int {
    if ticks == 0 then 0 else HeroStep(HeroAfter(ticks - 1))
  }

  /** The counter always names an existing slide: after any number of
      ticks it is the tick count modulo 3. */
  lemma {:induction false} HeroAfterIsMod(ticks: nat)
    ensures HeroAfter(ticks) == ticks % HeroSlides
    ensures 0 <= HeroAfter(ticks) < HeroSlides
  {
    if ticks > 0 {
      HeroAfterIsMod(ticks - 1);
    }
  }

  /** Three ticks bring any slide back. */
  lemma ThreeTicksReturn(count: int)
    requires 0 <= count < HeroSlides
    ensures HeroStep(HeroStep(HeroStep(count))) == count
  {
  }
}
