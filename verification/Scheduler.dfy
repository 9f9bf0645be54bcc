/** `internal/scheduler/admit.go`: the admission arithmetic. */
module Scheduler {
  import opened Model

  datatype Counts = Counts(total: int, fast: int, slow: int)

  datatype Verdict = Accept | GlobalLimit | SlowLimit | FastReserved

  /** The limits after the code's own clamping of the configuration. */
  function MaxTotal(cfg: Config): (m: int)
    ensures m >= 1
  {
    if cfg.maxRunning <= 0 then 1 else cfg.maxRunning
  }

  function MaxSlow(cfg: Config): (m: int)
    ensures m >= 0
  {
    if cfg.maxSlow < 0 then 0 else cfg.maxSlow
  }

  function Reserve(cfg: Config): (m: int)
    ensures m >= 0
  {
    if cfg.minFree < 0 then 0 else cfg.minFree
  }

  function Admit(cfg: Config, op: Op, cls: Class, counts: Counts): Verdict {
    if op.Stop? then Accept
    else
      var maxT := MaxTotal(cfg);
      if counts.total >= maxT then GlobalLimit
      else if cls.Slow? then
        if counts.slow >= MaxSlow(cfg) then SlowLimit
        else
          var after := counts.total + 1;
          var free := maxT - after;
          if free < Reserve(cfg) then FastReserved else Accept
      else Accept
  }

  /** What the configuration says, but no less than `least`. */
  function AtLeast(configured: int, least: int): int {
    if configured < least then least else configured
  }

  /** Who is let in, and why anybody else is not, in the terms of the configuration. */
  lemma AdmitExactly(cfg: Config, cls: Class, counts: Counts)
    requires cfg.maxRunning >= 1 && cfg.maxSlow >= 0 && cfg.minFree >= 0
    ensures Admit(cfg, Start, cls, counts).Accept? <==>
      && counts.total < cfg.maxRunning
      && (cls.Slow? ==> counts.slow < cfg.maxSlow && counts.total + 1 + cfg.minFree <= cfg.maxRunning)
    ensures Admit(cfg, Start, cls, counts).GlobalLimit? <==> counts.total >= cfg.maxRunning
    ensures Admit(cfg, Start, cls, counts).SlowLimit? <==>
      counts.total < cfg.maxRunning && cls.Slow? && counts.slow >= cfg.maxSlow
    ensures Admit(cfg, Stop, cls, counts).Accept?
  {
  }

  /** A limit out of range acts as the nearest one in range. */
  lemma LimitsClamped(cfg: Config, op: Op, cls: Class, counts: Counts)
    ensures cfg.maxRunning <= 0 ==> Admit(cfg, op, cls, counts) == Admit(cfg.(maxRunning := 1), op, cls, counts)
    ensures cfg.maxSlow <= 0 ==> Admit(cfg, op, cls, counts) == Admit(cfg.(maxSlow := 0), op, cls, counts)
    ensures cfg.minFree <= 0 ==> Admit(cfg, op, cls, counts) == Admit(cfg.(minFree := 0), op, cls, counts)
  {
  }

  /** The policy a table of occupying rows must meet: the total limit, the slow limit, and the
      slots kept free of slow rows. */
  predicate Meets(cfg: Config, total: int, slow: int) {
    && 0 <= slow <= total <= AtLeast(cfg.maxRunning, 1)
    && slow <= AtLeast(cfg.maxSlow, 0)
    && (slow > 0 ==> slow <= AtLeast(cfg.maxRunning, 1) - AtLeast(cfg.minFree, 0))
  }

  /** On exact counts, admission keeps the policy; a refused start row either would break the
      policy if it were let in, or is slow and would eat into the reserved free slots. */
  lemma AdmitKeepsPolicy(cfg: Config, cls: Class, counts: Counts)
    requires Meets(cfg, counts.total, counts.slow)
    ensures var slow' := counts.slow + if cls.Slow? then 1 else 0;
            var ok := Admit(cfg, Start, cls, counts).Accept?;
            && (ok ==> Meets(cfg, counts.total + 1, slow'))
            && (!ok ==>
                 || !Meets(cfg, counts.total + 1, slow')
                 || (cls.Slow? && AtLeast(cfg.maxRunning, 1) - (counts.total + 1) < AtLeast(cfg.minFree, 0)))
  {
  }
}
