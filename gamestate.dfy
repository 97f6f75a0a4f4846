/** The game-wide state record, its reducer `gameReducer`, the initial state
    and the `setAutopilot` action creator with its default target. */
module GameState {

  datatype Option<T> = None | Some(value: T)

  datatype GameMode = Solar | Arcade | Orbit | Raiden

  datatype OrbitParams = OrbitParams(speed: real, distance: real, angle: real)

  /** A `Partial<orbitParams>` payload: a field is either present or absent. */
  datatype OrbitPatch = OrbitPatch(speed: Option<real>, distance: Option<real>, angle: Option<real>)

  datatype State = State(
    gameMode: GameMode,
    autopilotActive: bool,
    autopilotTarget: Option<string>,
    closestBody: Option<string>,
    aiDescription: Option<string>,
    isAiLoading: bool,
    arcadeScore: int,
    arcadeGameOver: bool,
    arcadeHighScore: int,
    orbitParams: OrbitParams,
    orbitZoom: real,
    raidenScore: int,
    raidenHp: int,
    raidenShield: int,
    raidenHighScore: int,
    isMuted: bool)

  /** The dispatched actions; `Unrecognised` stands for any other `type` tag. */
  datatype Action =
    | SetGameMode(mode: GameMode)
    | SetAutopilot(active: bool, target: Option<string>)
    | SetClosestBody(body: Option<string>)
    | SetAiDescription(description: Option<string>)
    | SetAiLoading(loading: bool)
    | SetArcadeScore(score: int)
    | SetArcadeGameOver(over: bool)
    | SetOrbitParams(patch: OrbitPatch)
    | SetOrbitZoom(zoom: real)
    | SetRaidenScore(score: int)
    | SetRaidenHp(hp: int)
    | SetRaidenShield(shield: int)
    | ToggleMute
    | ResetArcade
    | ResetRaiden
    | Unrecognised(kind: string)

  function MaxInt(a: int, b: int): int { if a < b then b else a }

  function Pick<T>(o: Option<T>, old_: T): T { if o.Some? then o.value else old_ }

  /** `{ ...params, ...patch }`: every field present in the patch wins, every
      absent field keeps its old value. */
  function MergeOrbit(p: OrbitParams, q: OrbitPatch): (r: OrbitParams)
    ensures q.speed.Some? ==> r.speed == q.speed.value
    ensures q.speed.None? ==> r.speed == p.speed
    ensures q.distance.Some? ==> r.distance == q.distance.value
    ensures q.distance.None? ==> r.distance == p.distance
    ensures q.angle.Some? ==> r.angle == q.angle.value
    ensures q.angle.None? ==> r.angle == p.angle
  {
    OrbitParams(Pick(q.speed, p.speed), Pick(q.distance, p.distance), Pick(q.angle, p.angle))
  }

  /** Two successive patches, as one: the later one's fields win. */
  function Overlay(q1: OrbitPatch, q2: OrbitPatch): OrbitPatch {
    OrbitPatch(
      if q2.speed.Some? then q2.speed else q1.speed,
      if q2.distance.Some? then q2.distance else q1.distance,
      if q2.angle.Some? then q2.angle else q1.angle)
  }

  /** Merging two partial updates in turn is merging their overlay once;
      the empty patch changes nothing, and a patch applied twice acts as if applied once. */
  lemma MergeOrbitLaws(p: OrbitParams, q1: OrbitPatch, q2: OrbitPatch)
    ensures MergeOrbit(MergeOrbit(p, q1), q2) == MergeOrbit(p, Overlay(q1, q2))
    ensures MergeOrbit(p, OrbitPatch(None, None, None)) == p
    ensures MergeOrbit(MergeOrbit(p, q1), q1) == MergeOrbit(p, q1)
  {}

  /** `gameReducer`. High scores never decrease, a score update leaves the
      matching high score at least the new score, and only `TOGGLE_MUTE`
      changes the mute flag. */
  function Reduce(s: State, a: Action): (r: State)
    ensures r.arcadeHighScore >= s.arcadeHighScore
    ensures r.raidenHighScore >= s.raidenHighScore
    ensures a.SetArcadeScore? ==> r.arcadeScore == a.score && r.arcadeHighScore >= a.score
    ensures a.SetRaidenScore? ==> r.raidenScore == a.score && r.raidenHighScore >= a.score
    ensures r.isMuted != s.isMuted <==> a.ToggleMute?
  {
    match a
    case SetGameMode(m) => s.(gameMode := m)
    case SetAutopilot(active, target) => s.(autopilotActive := active, autopilotTarget := target)
    case SetClosestBody(b) => s.(closestBody := b)
    case SetAiDescription(d) => s.(aiDescription := d)
    case SetAiLoading(l) => s.(isAiLoading := l)
    case SetArcadeScore(p) => s.(arcadeScore := p, arcadeHighScore := MaxInt(s.arcadeHighScore, p))
    case SetArcadeGameOver(g) => s.(arcadeGameOver := g)
    case SetOrbitParams(q) => s.(orbitParams := MergeOrbit(s.orbitParams, q))
    case SetOrbitZoom(z) => s.(orbitZoom := z)
    case SetRaidenScore(p) => s.(raidenScore := p, raidenHighScore := MaxInt(s.raidenHighScore, p))
    case SetRaidenHp(h) => s.(raidenHp := h)
    case SetRaidenShield(sh) => s.(raidenShield := sh)
    case ToggleMute => s.(isMuted := !s.isMuted)
    case ResetArcade => s.(arcadeScore := 0, arcadeGameOver := false)
    case ResetRaiden => s.(raidenScore := 0, raidenHp := 100, raidenShield := 0)
    case Unrecognised(_) => s
  }

  /** The `saveSettings` write `TOGGLE_MUTE` makes: present exactly for that
      action, and carrying the mute flag the new state holds. */
  function SettingsWrite(s: State, a: Action): (r: Option<bool>)
    ensures r.Some? <==> a.ToggleMute?
    ensures r.Some? ==> r.value == Reduce(s, a).isMuted
  {
    if a.ToggleMute? then Some(!s.isMuted) else None
  }

  /** The state after dispatching `acts` in order. */
  function ReduceAll(s: State, acts: seq<Action>): State
    decreases |acts|
  {
    if |acts| == 0 then s else Reduce(ReduceAll(s, acts[..|acts| - 1]), acts[|acts| - 1])
  }

  /** Over any run of actions the arcade high score is the maximum of its
      starting value and every `SET_ARCADE_SCORE` payload dispatched. */
  lemma {:induction false} ArcadeHighScoreIsMaximum(s: State, acts: seq<Action>)
    ensures ReduceAll(s, acts).arcadeHighScore >= s.arcadeHighScore
    ensures forall i :: 0 <= i < |acts| && acts[i].SetArcadeScore? ==> ReduceAll(s, acts).arcadeHighScore >= acts[i].score
    ensures ReduceAll(s, acts).arcadeHighScore == s.arcadeHighScore
      || exists i :: 0 <= i < |acts| && acts[i].SetArcadeScore? && ReduceAll(s, acts).arcadeHighScore == acts[i].score
    decreases |acts|
  {
    if |acts| > 0 {
      var init := acts[..|acts| - 1];
      var last := acts[|acts| - 1];
      ArcadeHighScoreIsMaximum(s, init);
      var mid := ReduceAll(s, init);
      assert ReduceAll(s, acts) == Reduce(mid, last);
      forall i | 0 <= i < |acts| && acts[i].SetArcadeScore?
        ensures ReduceAll(s, acts).arcadeHighScore >= acts[i].score
      {
        if i < |acts| - 1 {
          assert init[i] == acts[i];
        }
      }
      if ReduceAll(s, acts).arcadeHighScore != s.arcadeHighScore {
        if last.SetArcadeScore? && ReduceAll(s, acts).arcadeHighScore == last.score {
        } else {
          assert ReduceAll(s, acts).arcadeHighScore == mid.arcadeHighScore;
          var j :| 0 <= j < |init| && init[j].SetArcadeScore? && mid.arcadeHighScore == init[j].score;
          assert acts[j] == init[j];
        }
      }
    }
  }

  /** The same for the raiden high score and `SET_RAIDEN_SCORE`. */
  lemma {:induction false} RaidenHighScoreIsMaximum(s: State, acts: seq<Action>)
    ensures ReduceAll(s, acts).raidenHighScore >= s.raidenHighScore
    ensures forall i :: 0 <= i < |acts| && acts[i].SetRaidenScore? ==> ReduceAll(s, acts).raidenHighScore >= acts[i].score
    ensures ReduceAll(s, acts).raidenHighScore == s.raidenHighScore
      || exists i :: 0 <= i < |acts| && acts[i].SetRaidenScore? && ReduceAll(s, acts).raidenHighScore == acts[i].score
    decreases |acts|
  {
    if |acts| > 0 {
      var init := acts[..|acts| - 1];
      var last := acts[|acts| - 1];
      RaidenHighScoreIsMaximum(s, init);
      var mid := ReduceAll(s, init);
      assert ReduceAll(s, acts) == Reduce(mid, last);
      forall i | 0 <= i < |acts| && acts[i].SetRaidenScore?
        ensures ReduceAll(s, acts).raidenHighScore >= acts[i].score
      {
        if i < |acts| - 1 {
          assert init[i] == acts[i];
        }
      }
      if ReduceAll(s, acts).raidenHighScore != s.raidenHighScore {
        if last.SetRaidenScore? && ReduceAll(s, acts).raidenHighScore == last.score {
        } else {
          assert ReduceAll(s, acts).raidenHighScore == mid.raidenHighScore;
          var j :| 0 <= j < |init| && init[j].SetRaidenScore? && mid.raidenHighScore == init[j].score;
          assert acts[j] == init[j];
        }
      }
    }
  }

  /** The resets touch only their own mode's fields (high scores included
      among the untouched), and a second reset changes nothing more. */
  lemma ResetsTouchOnlyTheirFields(s: State)
    ensures Reduce(s, ResetArcade) == s.(arcadeScore := 0, arcadeGameOver := false)
    ensures Reduce(s, ResetRaiden) == s.(raidenScore := 0, raidenHp := 100, raidenShield := 0)
    ensures Reduce(Reduce(s, ResetArcade), ResetArcade) == Reduce(s, ResetArcade)
    ensures Reduce(Reduce(s, ResetRaiden), ResetRaiden) == Reduce(s, ResetRaiden)
  {}

  /** Switching mode changes only the mode, so switching back restores the
      whole state: another mode's score and flags survive for resume. */
  lemma ModeSwitchRoundTrip(s: State, m: GameMode)
    ensures Reduce(s, SetGameMode(m)) == s.(gameMode := m)
    ensures Reduce(Reduce(s, SetGameMode(m)), SetGameMode(s.gameMode)) == s
  {}

  /** `TOGGLE_MUTE` is an involution. */
  lemma ToggleMuteTwice(s: State)
    ensures Reduce(s, ToggleMute).isMuted == !s.isMuted
    ensures Reduce(Reduce(s, ToggleMute), ToggleMute) == s
  {}

  /** An action with an unrecognised tag leaves the state as it was. */
  lemma UnrecognisedIsIdentity(s: State, kind: string)
    ensures Reduce(s, Unrecognised(kind)) == s
  {}

  /** `SET_ORBIT_PARAMS` changes only `orbitParams`, and only its fields
      present in the payload. */
  lemma OrbitPatchOnly(s: State, q: OrbitPatch)
    ensures Reduce(s, SetOrbitParams(q)) == s.(orbitParams := MergeOrbit(s.orbitParams, q))
  {}

  /** The state the hook starts from, given the stored high scores and mute
      setting. */
  function Initial(arcadeHigh: int, raidenHigh: int, muted: bool): (r: State)
    ensures r.gameMode == Solar && !r.autopilotActive && r.autopilotTarget == None
    ensures r.closestBody == None && r.aiDescription == None && !r.isAiLoading
    ensures r.arcadeScore == 0 && !r.arcadeGameOver && r.arcadeHighScore == arcadeHigh
    ensures r.orbitParams == OrbitParams(3.0, 250.0, 0.0) && r.orbitZoom == 0.8
    ensures r.raidenScore == 0 && r.raidenHp == 100 && r.raidenShield == 0 && r.raidenHighScore == raidenHigh
    ensures r.isMuted == muted
  {
    State(Solar, false, None, None, None, false, 0, false, arcadeHigh,
          OrbitParams(3.0, 250.0, 0.0), 0.8, 0, 100, 0, raidenHigh, muted)
  }

  /** A fresh state is already reset: both resets leave it unchanged. */
  lemma InitialIsReset(arcadeHigh: int, raidenHigh: int, muted: bool)
    ensures Reduce(Initial(arcadeHigh, raidenHigh, muted), ResetArcade) == Initial(arcadeHigh, raidenHigh, muted)
    ensures Reduce(Initial(arcadeHigh, raidenHigh, muted), ResetRaiden) == Initial(arcadeHigh, raidenHigh, muted)
  {}

  /** `setAutopilot(active, target = null)`: the action it dispatches. */
  function SetAutopilotAction(active: bool, target: Option<string> := None): (a: Action)
    ensures a.SetAutopilot? && a.active == active && a.target == target
  {
    SetAutopilot(active, target)
  }

  /** Called without a target, `setAutopilot` stores no target; with one, it
      stores that one. */
  lemma SetAutopilotDefault(s: State, active: bool, name: string)
    ensures Reduce(s, SetAutopilotAction(active)).autopilotTarget == None
    ensures Reduce(s, SetAutopilotAction(active)).autopilotActive == active
    ensures Reduce(s, SetAutopilotAction(active, Some(name))).autopilotTarget == Some(name)
  {}
}
