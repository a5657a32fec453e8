/**
 * The stat engine and the mood classifier of the cat (src/components/CatGame.jsx).
 * Everything here is a pure function of the stats record.
 */
module CatStats {

  /** hunger, happiness and energy; the game keeps each of them in [0, 100]. */
  datatype Stats = Stats(hunger: real, happiness: real, energy: real)

  /** The stats of a new game (CatGame.jsx:17). */
  const Initial := Stats(80.0, 80.0, 80.0)

  const Floor := 0.0
  const Ceiling := 100.0

  predicate InRange(x: real) { Floor <= x <= Ceiling }

  predicate Bounded(s: Stats) {
    InRange(s.hunger) && InRange(s.happiness) && InRange(s.energy)
  }

  /** JavaScript's Math.min and Math.max on two numbers. */
  function Min(a: real, b: real): real { if a <= b then a else b }
  function Max(a: real, b: real): real { if a >= b then a else b }

  // ---------------------------------------------------------------------------
  // Reference definition: add a change to every stat, then clamp each to [0, 100]
  // ---------------------------------------------------------------------------

  function Clamp(x: real): (r: real)
    ensures InRange(r)
    ensures InRange(x) ==> r == x
    ensures x < Floor ==> r == Floor
    ensures x > Ceiling ==> r == Ceiling
  {
    if x < Floor then Floor else if x > Ceiling then Ceiling else x
  }

  function ClampedAdd(s: Stats, d: Stats): (r: Stats)
    ensures Bounded(r)
  {
    Stats(Clamp(s.hunger + d.hunger), Clamp(s.happiness + d.happiness), Clamp(s.energy + d.energy))
  }

  /** The per-tick change while asleep and while awake, and the changes of the two actions. */
  const SleepingDecay := Stats(-1.0, -0.5, 5.0)
  const AwakeDecay := Stats(-1.0, -0.5, -0.5)
  const FeedChange := Stats(25.0, 0.0, 5.0)
  const PlayChange := Stats(-10.0, 20.0, -15.0)

  // ---------------------------------------------------------------------------
  // The updates as the component writes them, with one-sided Math.min / Math.max
  // ---------------------------------------------------------------------------

  /** One run of the game loop's interval callback: the new stats built from `prev`. */
  function Decayed(prev: Stats, sleeping: bool): (next: Stats)
    ensures Bounded(prev) ==> Bounded(next)
    ensures Bounded(prev) ==> next.hunger <= prev.hunger && next.happiness <= prev.happiness
    ensures Bounded(prev) && sleeping ==> next.energy >= prev.energy
    ensures Bounded(prev) && !sleeping ==> next.energy <= prev.energy
  {
    if sleeping then
      Stats(Max(0.0, prev.hunger - 1.0), Max(0.0, prev.happiness - 0.5), Min(100.0, prev.energy + 5.0))
    else
      Stats(Max(0.0, prev.hunger - 1.0), Max(0.0, prev.happiness - 0.5), Max(0.0, prev.energy - 0.5))
  }

  /** The stats after a successful feed. */
  function Fed(s: Stats): (r: Stats)
    ensures r.happiness == s.happiness
    ensures Bounded(s) ==> Bounded(r) && r.hunger >= s.hunger && r.energy >= s.energy
  {
    s.(hunger := Min(100.0, s.hunger + 25.0), energy := Min(100.0, s.energy + 5.0))
  }

  /** The stats after a successful play. */
  function Played(s: Stats): (r: Stats)
    ensures Bounded(s) ==> Bounded(r)
    ensures Bounded(s) ==> r.happiness >= s.happiness && r.hunger <= s.hunger && r.energy <= s.energy
  {
    s.(happiness := Min(100.0, s.happiness + 20.0),
       hunger := Max(0.0, s.hunger - 10.0),
       energy := Max(0.0, s.energy - 15.0))
  }

  /** A tick is the clamped addition of the sleeping or the awake decay. */
  lemma DecayedIsClampedDecay(prev: Stats, sleeping: bool)
    requires Bounded(prev)
    ensures Decayed(prev, sleeping) == ClampedAdd(prev, if sleeping then SleepingDecay else AwakeDecay)
  {
  }

  /** Feeding is the clamped addition of +25 hunger and +5 energy. */
  lemma FedIsClampedFeed(s: Stats)
    requires Bounded(s)
    ensures Fed(s) == ClampedAdd(s, FeedChange)
  {
  }

  /** Playing is the clamped addition of -10 hunger, +20 happiness and -15 energy. */
  lemma PlayedIsClampedPlay(s: Stats)
    requires Bounded(s)
    ensures Played(s) == ClampedAdd(s, PlayChange)
  {
  }

  /** Ticks applied one after another: `pattern[i]` says whether the cat sleeps during tick i. */
  function DecayedMany(s: Stats, pattern: seq<bool>): Stats
    decreases |pattern|
  {
    if pattern == [] then s else DecayedMany(Decayed(s, pattern[0]), pattern[1..])
  }

  /** However many ticks pass, asleep or awake, every stat stays in [0, 100]. */
  lemma {:induction false} DecayedManyBounded(s: Stats, pattern: seq<bool>)
    requires Bounded(s)
    ensures Bounded(DecayedMany(s, pattern))
    decreases |pattern|
  {
    if pattern != [] {
      DecayedManyBounded(Decayed(s, pattern[0]), pattern[1..]);
    }
  }

  /** Hunger and happiness never rise, tick after tick, whether the cat sleeps or not. */
  lemma {:induction false} HungerNeverRises(s: Stats, pattern: seq<bool>)
    requires Bounded(s)
    ensures DecayedMany(s, pattern).hunger <= s.hunger
    ensures DecayedMany(s, pattern).happiness <= s.happiness
    decreases |pattern|
  {
    if pattern != [] {
      HungerNeverRises(Decayed(s, pattern[0]), pattern[1..]);
    }
  }

  // ---------------------------------------------------------------------------
  // Mood classifier
  // ---------------------------------------------------------------------------

  datatype Mood = Happy | Sad | Eating | Playing | Sleeping

  /** What the cat shows: its mood and its status line. */
  datatype Face = Face(mood: Mood, status: string)

  const Hungry := "J'ai faim..."
  const Bored := "Je m'ennuie..."
  const Unwell := "Je ne me sens pas bien..."
  const Content := "Je me sens bien !"
  const GoodNight := "Zzz... Bonne nuit..."

  /**
   * updateCatState: sad when the average stat is below 40 or hunger or happiness is below 20,
   * happy otherwise; the sad status line names hunger first, then boredom.
   */
  function Classify(s: Stats): (f: Face)
    ensures f.mood == Sad <==> s.hunger + s.happiness + s.energy < 120.0 || s.hunger < 20.0 || s.happiness < 20.0
    ensures f.mood == Happy <==> f.mood != Sad
    ensures f.status == Hungry <==> s.hunger < 20.0
    ensures f.status == Bored <==> s.hunger >= 20.0 && s.happiness < 20.0
    ensures f.status == Unwell <==> f.mood == Sad && s.hunger >= 20.0 && s.happiness >= 20.0
    ensures f.status == Content <==> f.mood == Happy
  {
    var avg := (s.hunger + s.happiness + s.energy) / 3.0;
    if avg < 40.0 || s.hunger < 20.0 || s.happiness < 20.0 then
      Face(Sad, if s.hunger < 20.0 then Hungry else if s.happiness < 20.0 then Bored else Unwell)
    else
      Face(Happy, Content)
  }

  /**
   * The face the component settles on whenever the stats or the sleep flag change:
   * asleep, the stats are not consulted at all.
   */
  function Appearance(s: Stats, sleeping: bool): (f: Face)
    ensures sleeping ==> f == Face(Sleeping, GoodNight)
    ensures !sleeping ==> f.mood in {Happy, Sad} && f.status != GoodNight
    ensures !sleeping ==> (f.mood == Sad <==> s.hunger + s.happiness + s.energy < 120.0 || s.hunger < 20.0 || s.happiness < 20.0)
  {
    if sleeping then Face(Sleeping, GoodNight) else Classify(s)
  }
}
