/**
 * The power-up activation and expiry state machine (game.js:513-679): the
 * active-power-up flags, the paddle width they control and the pending expiry
 * callbacks. Each `setTimeout` expiry callback is an explicit transition; a
 * `clearTimeout` turns the pending flag of that category off, after which the
 * expiry can no longer fire.
 */
module Powers {
  import opened Entities

  /** The `activePowerups` record (game.js:84-89). */
  datatype ActivePowerups = ActivePowerups(blasters: bool, blasterLevel: int, small: bool, big: bool)

  /** For each category, whether an expiry callback is scheduled (game.js:91-95). */
  datatype Timers = Timers(blasters: bool, small: bool, big: bool)

  /** Everything a pickup or an expiry reads and writes. */
  datatype PowerState = PowerState(active: ActivePowerups, timers: Timers, width: int)

  /** The state initGame leaves behind (game.js:238-247). */
  const NoPowers: PowerState :=
    PowerState(ActivePowerups(false, 0, false, false), Timers(false, false, false), PaddleNormalWidth)

  /** The invariant of the state machine: the blaster level is 0, 1 or 2 and is
      positive exactly while blasters are on; small and big exclude each other;
      each size flag pins the width to its two widths, and with neither the width
      is normal; an expiry is pending exactly while its flag is on. */
  ghost predicate PowersValid(p: PowerState)
  {
    && 0 <= p.active.blasterLevel <= DoubleBlasters
    && (p.active.blasters <==> p.active.blasterLevel > 0)
    && !(p.active.small && p.active.big)
    && (p.active.small ==> p.width == PaddleSmallWidth || p.width == PaddleDoubleSmallWidth)
    && (p.active.big ==> p.width == PaddleBigWidth || p.width == PaddleDoubleBigWidth)
    && (!p.active.small && !p.active.big ==> p.width == PaddleNormalWidth)
    && p.timers.blasters == p.active.blasters
    && p.timers.small == p.active.small
    && p.timers.big == p.active.big
  }

  /** Width after a small pickup while small is already on (game.js:591-605);
      the last case is the source's fallback for a width it never reaches. */
  function ShrinkAgain(w: int): int
  {
    if w == PaddleSmallWidth then PaddleDoubleSmallWidth
    else if w == PaddleDoubleSmallWidth then w
    else PaddleSmallWidth
  }

  /** Width after a big pickup while big is already on (game.js:637-651). */
  function GrowAgain(w: int): int
  {
    if w == PaddleBigWidth then PaddleDoubleBigWidth
    else if w == PaddleDoubleBigWidth then w
    else PaddleBigWidth
  }

  /** Picking one size while the other is on resets the width to normal, clears
      the other's timer and flag (game.js:515-542). */
  function CancelOpposite(p: PowerState, k: PowerupType): PowerState
  {
    if k == Small && p.active.big then
      p.(width := PaddleNormalWidth, timers := p.timers.(big := false), active := p.active.(big := false))
    else if k == Big && p.active.small then
      p.(width := PaddleNormalWidth, timers := p.timers.(small := false), active := p.active.(small := false))
    else p
  }

  /** The effect of catching a power-up of kind k (activatePowerup). Every
      pickup (re)schedules the expiry of its own category. */
  function Activate(p: PowerState, k: PowerupType): PowerState
  {
    var q := CancelOpposite(p, k);
    match k
    case Blasters =>
      var level := if q.active.blasters && q.active.blasterLevel == SingleBlasters
                   then DoubleBlasters else SingleBlasters;
      q.(active := q.active.(blasters := true, blasterLevel := level), timers := q.timers.(blasters := true))
    case Small =>
      q.(width := if q.active.small then ShrinkAgain(q.width) else PaddleSmallWidth,
         active := q.active.(small := true), timers := q.timers.(small := true))
    case Big =>
      q.(width := if q.active.big then GrowAgain(q.width) else PaddleBigWidth,
         active := q.active.(big := true), timers := q.timers.(big := true))
  }

  /** The expiry callback of category k (game.js:576-585, 622-631, 668-677). A
      size expiry restores the normal width only if the other size is off. */
  function Expire(p: PowerState, k: PowerupType): PowerState
  {
    match k
    case Blasters =>
      p.(active := p.active.(blasters := false, blasterLevel := 0), timers := p.timers.(blasters := false))
    case Small =>
      p.(active := p.active.(small := false), timers := p.timers.(small := false),
         width := if !p.active.big then PaddleNormalWidth else p.width)
    case Big =>
      p.(active := p.active.(big := false), timers := p.timers.(big := false),
         width := if !p.active.small then PaddleNormalWidth else p.width)
  }

  /** Whether the expiry callback of category k is still scheduled. */
  predicate Pending(p: PowerState, k: PowerupType)
  {
    match k
    case Blasters => p.timers.blasters
    case Small => p.timers.small
    case Big => p.timers.big
  }

  /** Something that happens to the power-up state: a catch or a timer firing. */
  datatype PowerEvent = Pickup(kind: PowerupType) | Expiry(kind: PowerupType)

  /** One event; an expiry that is no longer scheduled cannot fire. */
  function Apply(p: PowerState, e: PowerEvent): PowerState
  {
    match e
    case Pickup(k) => Activate(p, k)
    case Expiry(k) => if Pending(p, k) then Expire(p, k) else p
  }

  /** A whole history of events, in order. */
  function Replay(p: PowerState, evs: seq<PowerEvent>): PowerState
    decreases |evs|
  {
    if evs == [] then p else Replay(Apply(p, evs[0]), evs[1..])
  }

  lemma NoPowersValid()
    ensures PowersValid(NoPowers)
  {
  }

  /** Every pickup keeps the invariant. */
  lemma ActivateKeepsValid(p: PowerState, k: PowerupType)
    requires PowersValid(p)
    ensures PowersValid(Activate(p, k))
  {
  }

  /** Every expiry that can still fire keeps the invariant. */
  lemma ExpireKeepsValid(p: PowerState, k: PowerupType)
    requires PowersValid(p) && Pending(p, k)
    ensures PowersValid(Expire(p, k))
  {
  }

  /** Under any sequence of pickups and expiries the invariant holds; in
      particular small and big are never on together and the width is always
      one of the five paddle widths. */
  lemma {:induction false} ReplayKeepsValid(p: PowerState, evs: seq<PowerEvent>)
    requires PowersValid(p)
    ensures PowersValid(Replay(p, evs))
    ensures !(Replay(p, evs).active.small && Replay(p, evs).active.big)
    ensures Replay(p, evs).width in {PaddleDoubleSmallWidth, PaddleSmallWidth, PaddleNormalWidth,
                                     PaddleBigWidth, PaddleDoubleBigWidth}
    decreases |evs|
  {
    if evs != [] {
      var q := Apply(p, evs[0]);
      match evs[0] {
        case Pickup(k) => ActivateKeepsValid(p, k);
        case Expiry(k) => if Pending(p, k) { ExpireKeepsValid(p, k); }
      }
      ReplayKeepsValid(q, evs[1..]);
    }
  }

  /** The "shouldn't normally happen" branches are unreachable: a repeated size
      pickup always finds one of its two widths, and a size expiry never finds
      the other size on, so it always restores the normal width. */
  lemma FallbackBranchesUnreachable(p: PowerState)
    requires PowersValid(p)
    ensures p.active.small ==> ShrinkAgain(p.width) == PaddleDoubleSmallWidth
    ensures p.active.big ==> GrowAgain(p.width) == PaddleDoubleBigWidth
    ensures Pending(p, Small) ==> Expire(p, Small).width == PaddleNormalWidth
    ensures Pending(p, Big) ==> Expire(p, Big).width == PaddleNormalWidth
  {
  }

  /** Repeated small pickups give widths 60, 40, 40 and leave only small on. */
  lemma SmallStacking(p: PowerState)
    requires PowersValid(p) && !p.active.small
    ensures Activate(p, Small).width == PaddleSmallWidth
    ensures Activate(Activate(p, Small), Small).width == PaddleDoubleSmallWidth
    ensures Activate(Activate(Activate(p, Small), Small), Small).width == PaddleDoubleSmallWidth
    ensures Activate(p, Small).active.small && !Activate(p, Small).active.big
    ensures Activate(p, Small).timers.small && !Activate(p, Small).timers.big
  {
  }

  /** Repeated big pickups give widths 150, 200, 200 and leave only big on. */
  lemma BigStacking(p: PowerState)
    requires PowersValid(p) && !p.active.big
    ensures Activate(p, Big).width == PaddleBigWidth
    ensures Activate(Activate(p, Big), Big).width == PaddleDoubleBigWidth
    ensures Activate(Activate(Activate(p, Big), Big), Big).width == PaddleDoubleBigWidth
    ensures Activate(p, Big).active.big && !Activate(p, Big).active.small
    ensures Activate(p, Big).timers.big && !Activate(p, Big).timers.small
  {
  }

  /** Picking the opposite size cancels the other one (flag and timer) and then
      applies the single-magnitude width; blasters are untouched. */
  lemma OppositeSizeCancels(p: PowerState)
    requires PowersValid(p)
    ensures p.active.big ==>
              Activate(p, Small) == p.(width := PaddleSmallWidth,
                                       active := p.active.(small := true, big := false),
                                       timers := p.timers.(small := true, big := false))
    ensures p.active.small ==>
              Activate(p, Big) == p.(width := PaddleBigWidth,
                                     active := p.active.(small := false, big := true),
                                     timers := p.timers.(small := false, big := true))
  {
  }

  /** Blaster pickups cycle the level 0 -> 1 -> 2 -> 1 (a pickup at level 2
      drops back to 1); an expiry switches blasters off at level 0. Sizes and
      their timers are untouched either way. */
  lemma BlasterCycle(p: PowerState)
    requires PowersValid(p) && !p.active.blasters
    ensures var a := Activate(p, Blasters);
            var b := Activate(a, Blasters);
            var c := Activate(b, Blasters);
            && a.active.blasters && a.active.blasterLevel == SingleBlasters
            && b.active.blasters && b.active.blasterLevel == DoubleBlasters
            && c.active.blasters && c.active.blasterLevel == SingleBlasters
            && a.width == p.width && a.active.small == p.active.small && a.active.big == p.active.big
    ensures forall q :: PowersValid(q) && q.active.blasters ==>
              !Expire(q, Blasters).active.blasters && Expire(q, Blasters).active.blasterLevel == 0
              && Expire(q, Blasters).width == q.width
  {
  }
}
