/** Clamping a requested thinking level to what a model supports. */
module ThinkingLevels {
  import opened Options

  datatype Level = Off | Minimal | Low | Medium | High | XHigh | Max

  const LEVELS: seq<Level> := [Off, Minimal, Low, Medium, High, XHigh, Max]

  function Rank(level: Level): (rank: nat)
    ensures rank < |LEVELS| && LEVELS[rank] == level
  {
    match level
    case Off => 0 case Minimal => 1 case Low => 2 case Medium => 3 case High => 4 case XHigh => 5 case Max => 6
  }

  /** A level may be mapped to a provider value, or to None, which marks it unsupported. */
  datatype Model = Model(reasoning: bool, thinkingLevelMap: map<Level, Option<string>>)

  predicate Keeps(model: Model, level: Level) {
    var mapped := if level in model.thinkingLevelMap then Some(model.thinkingLevelMap[level]) else None;
    mapped != Some(None) && ((level.XHigh? || level.Max?) ==> mapped.Some?)
  }

  function Kept(model: Model, n: nat): seq<Level>
    requires n <= |LEVELS|
  {
    if n == 0 then []
    else Kept(model, n - 1) + if Keeps(model, LEVELS[n - 1]) then [LEVELS[n - 1]] else []
  }

  /** `getSupportedThinkingLevels` */
  function Supported(model: Model): seq<Level> {
    if !model.reasoning then [Off] else Kept(model, |LEVELS|)
  }

  /** A requested level; callers of the untyped interface may pass anything else. */
  datatype Request = Known(level: Level) | Unknown

  function SearchUp(available: seq<Level>, i: nat): Option<Level>
    decreases |LEVELS| - i
  {
    if i >= |LEVELS| then None else if LEVELS[i] in available then Some(LEVELS[i]) else SearchUp(available, i + 1)
  }

  function SearchDown(available: seq<Level>, i: nat): Option<Level>
    requires i <= |LEVELS|
  {
    if i == 0 then None else if LEVELS[i - 1] in available then Some(LEVELS[i - 1]) else SearchDown(available, i - 1)
  }

  function FirstOrOff(available: seq<Level>): Level {
    if available == [] then Off else available[0]
  }

  /** `clampThinkingLevel` */
  function Clamp(model: Model, request: Request): Level {
    var available := Supported(model);
    match request
    case Unknown => FirstOrOff(available)
    case Known(level) =>
      if level in available then level
      else
        var up := SearchUp(available, Rank(level));
        if up.Some? then up.value
        else
          var down := SearchDown(available, Rank(level));
          if down.Some? then down.value else FirstOrOff(available)
  }

  lemma {:induction false} KeptExactly(model: Model, n: nat, level: Level)
    requires n <= |LEVELS|
    ensures level in Kept(model, n) <==> Keeps(model, level) && Rank(level) < n
  {
    if n > 0 {
      KeptExactly(model, n - 1, level);
      assert Rank(LEVELS[n - 1]) == n - 1;
    }
  }

  /** The levels kept stay in their own order. */
  lemma {:induction false} KeptIsOrdered(model: Model, n: nat, i: nat, j: nat)
    requires n <= |LEVELS| && i < j < |Kept(model, n)|
    ensures Rank(Kept(model, n)[i]) < Rank(Kept(model, n)[j])
  {
    var before := Kept(model, n - 1);
    if j < |before| {
      KeptIsOrdered(model, n - 1, i, j);
    } else {
      KeptExactly(model, n - 1, before[i]);
      assert Rank(LEVELS[n - 1]) == n - 1;
    }
  }

  /** The levels that are kept although the model says nothing of them. */
  predicate IsStandard(level: Level) {
    !level.XHigh? && !level.Max?
  }

  /**
   * A model that does not reason supports off alone; one that does supports every level it maps to a value, and of
   * those it does not mention the standard ones.
   */
  lemma SupportedExactly(model: Model, level: Level)
    ensures level in Supported(model) <==>
            if !model.reasoning then level == Off
            else if level in model.thinkingLevelMap then model.thinkingLevelMap[level].Some?
            else IsStandard(level)
    ensures model.reasoning ==> (level in Supported(model) <==> Keeps(model, level))
    ensures !model.reasoning ==> Supported(model) == [Off]
  {
    KeptExactly(model, |LEVELS|, level);
  }

  lemma {:induction false} SearchUpFinds(available: seq<Level>, i: nat)
    ensures match SearchUp(available, i)
            case Some(r) =>
              r in available && Rank(r) >= i && forall l :: l in available && Rank(l) >= i ==> Rank(r) <= Rank(l)
            case None => forall l :: l in available ==> Rank(l) < i
    decreases |LEVELS| - i
  {
    if i < |LEVELS| {
      assert Rank(LEVELS[i]) == i;
      SearchUpFinds(available, i + 1);
    }
  }

  lemma {:induction false} SearchDownFinds(available: seq<Level>, i: nat)
    requires i <= |LEVELS|
    ensures match SearchDown(available, i)
            case Some(r) =>
              r in available && Rank(r) < i && forall l :: l in available && Rank(l) < i ==> Rank(l) <= Rank(r)
            case None => forall l :: l in available ==> Rank(l) >= i
  {
    if i > 0 {
      assert Rank(LEVELS[i - 1]) == i - 1;
      SearchDownFinds(available, i - 1);
    }
  }

  /** `clampThinkingLevel` */
  method ClampThinkingLevel(model: Model, request: Request) returns (r: Level)
    ensures r == Clamp(model, request)
  {
    var available := Supported(model);
    if request.Unknown? {
      return FirstOrOff(available);
    }
    if request.level in available {
      return request.level;
    }
    var requestedIndex := Rank(request.level);
    for i := requestedIndex to |LEVELS|
      invariant SearchUp(available, requestedIndex) == SearchUp(available, i)
    {
      if LEVELS[i] in available {
        return LEVELS[i];
      }
    }
    for i := requestedIndex downto 0
      invariant SearchDown(available, requestedIndex) == SearchDown(available, i)
    {
      if LEVELS[i] in available {
        return LEVELS[i];
      }
    }
    return FirstOrOff(available);
  }

  /** The least supported level at or above the request, else the greatest below it, else off. */
  ghost predicate IsClamped(available: seq<Level>, level: Level, r: Level) {
    if exists l :: l in available && Rank(l) >= Rank(level) then
      r in available && Rank(r) >= Rank(level) && forall l :: l in available && Rank(l) >= Rank(level) ==>
        Rank(r) <= Rank(l)
    else if available != [] then
      r in available && forall l :: l in available ==> Rank(l) <= Rank(r)
    else r.Off?
  }

  lemma ClampIsNearest(model: Model, level: Level)
    ensures IsClamped(Supported(model), level, Clamp(model, Known(level)))
  {
    var available := Supported(model);
    SearchUpFinds(available, Rank(level));
    SearchDownFinds(available, Rank(level));
    if available != [] {
      assert available[0] in available;
    }
  }

  /** Asking for more never gives less. */
  lemma ClampIsMonotone(model: Model, a: Level, b: Level)
    requires Rank(a) <= Rank(b)
    ensures Rank(Clamp(model, Known(a))) <= Rank(Clamp(model, Known(b)))
  {
    ClampIsNearest(model, a);
    ClampIsNearest(model, b);
  }

  /** A clamped level stays as it is, even the off that stands in when nothing is supported. */
  lemma ClampIsIdempotent(model: Model, request: Request)
    ensures Clamp(model, Known(Clamp(model, request))) == Clamp(model, request)
  {
    var available := Supported(model);
    if request.Known? {
      ClampIsNearest(model, request.level);
    }
    if available != [] {
      assert available[0] in available;
    } else {
      ClampIsNearest(model, Off);
    }
  }

  /** A request that is no level at all gets the least supported one. */
  lemma UnknownGetsLeast(model: Model)
    ensures Supported(model) == [] ==> Clamp(model, Unknown).Off?
    ensures forall level :: level in Supported(model) ==> Rank(Clamp(model, Unknown)) <= Rank(level)
  {
    var available := Supported(model);
    forall level | level in available ensures Rank(available[0]) <= Rank(level) {
      var j: nat :| j < |available| && available[j] == level;
      if model.reasoning && j > 0 {
        KeptIsOrdered(model, |LEVELS|, 0, j);
      }
    }
  }

  /** Whatever is asked for, the answer is supported unless nothing is, and that happens to reasoning models only. */
  lemma ClampIsSupported(model: Model, request: Request)
    ensures Clamp(model, request) in Supported(model) <==> Supported(model) != []
    ensures Supported(model) == [] <==> model.reasoning && forall level :: !Keeps(model, level)
  {
    var available := Supported(model);
    forall level ensures level in available <==> if model.reasoning then Keeps(model, level) else level.Off? {
      SupportedExactly(model, level);
    }
    if request.Known? {
      ClampIsNearest(model, request.level);
    }
    if available != [] {
      assert available[0] in available;
    }
  }
}
