/** The ship computer's text services (`geminiService`): the passive scan
    that cycles through the pregenerated entries of each body, the answers
    a deep scan or a chat request give for a missing client, a reply and a
    failure, the rate-limit classification of a failure, and the
    conversation context a chat request sends.

    The network reply is a parameter (`Outcome`), as is the one
    `Math.random()` value a fallback message is chosen by. */
module ShipComputer {
  import GS = GameState

  datatype Tables = Tables(
    science: map<string, seq<string>>,
    fun: map<string, seq<string>>,
    scale: map<string, seq<string>>)

  /** The parts of a thrown error the classifier looks at: `status` and
      `code` when they are numbers, and `message` when it is a string. */
  datatype ErrorInfo = ErrorInfo(status: GS.Option<int>, code: GS.Option<int>, message: GS.Option<string>)

  /** What the client call came back with. */
  datatype Outcome = Reply(text: string) | Failure(error: ErrorInfo)

  datatype Role = User | Assistant

  datatype Message = Message(role: Role, content: string)

  const NO_DATA: string := "No data available in local database."
  const NO_REPLY: string := "No data available."
  const SCAN_OFFLINE: string := "Ship computer offline. Unable to access neural network."
  const SCAN_RATE_LIMITED: string := "Warning: Neural network bandwidth exceeded. Sensors cooling down."
  const FALLBACK_MESSAGES: seq<string> := [
    "Long-range sensors are recalibrating.",
    "Solar flare interference detected. Database unreachable.",
    "Uplink packet loss. Retrying connection...",
    "Cosmic background radiation obscuring data stream."]
  const CHAT_OFFLINE: string := "Ship computer offline. Unable to establish communications."
  const CHAT_NO_REPLY: string := "Communications error."
  const CHAT_RATE_LIMITED: string := "Communications bandwidth exceeded. Please wait before sending another message."
  const CHAT_FAILED: string := "Communications interference detected. Unable to process query."
  /** `conversationHistory.slice(-6)`. */
  const CONTEXT_WINDOW: nat := 6

  function MinNat(a: nat, b: nat): nat { if a < b then a else b }

  function MaxNat(a: nat, b: nat): nat { if a < b then b else a }

  // ----- Interleaving -----

  /** Round `i` of the interleave: the `i`-th entry of each list that still has one. */
  function Round(a: seq<string>, b: seq<string>, c: seq<string>, i: nat): seq<string> {
    (if i < |a| then [a[i]] else []) + (if i < |b| then [b[i]] else []) + (if i < |c| then [c[i]] else [])
  }

  /** The first `n` rounds. */
  function Rounds(a: seq<string>, b: seq<string>, c: seq<string>, n: nat): seq<string> {
    if n == 0 then [] else Rounds(a, b, c, n - 1) + Round(a, b, c, n - 1)
  }

  /** Science, fun and scale entries interleaved for as many rounds as the longest list has entries. */
  function Interleaved(a: seq<string>, b: seq<string>, c: seq<string>): seq<string> {
    Rounds(a, b, c, MaxNat(|a|, MaxNat(|b|, |c|)))
  }

  lemma PrefixStep(s: seq<string>, n: nat)
    requires n < |s|
    ensures multiset(s[..n + 1]) == multiset(s[..n]) + multiset{s[n]}
  {
    assert s[..n + 1] == s[..n] + [s[n]];
  }

  /** One more round takes the next entry of a list, if it has one. */
  lemma TakeStep(s: seq<string>, k: nat)
    ensures multiset(s[..MinNat(k + 1, |s|)]) == multiset(s[..MinNat(k, |s|)]) + multiset(if k < |s| then [s[k]] else [])
  {
    if k < |s| {
      PrefixStep(s, k);
    }
  }

  /** The entries round `k` takes, list by list. */
  lemma RoundContents(a: seq<string>, b: seq<string>, c: seq<string>, k: nat)
    ensures multiset(Round(a, b, c, k))
         == multiset(if k < |a| then [a[k]] else []) + multiset(if k < |b| then [b[k]] else [])
          + multiset(if k < |c| then [c[k]] else [])
  {}

  lemma Regroup(pa: multiset<string>, pb: multiset<string>, pc: multiset<string>,
                ra: multiset<string>, rb: multiset<string>, rc: multiset<string>)
    ensures (pa + pb + pc) + (ra + rb + rc) == (pa + ra) + (pb + rb) + (pc + rc)
  {}

  /** After `n` rounds, exactly the first `n` entries of each list have been taken. */
  lemma {:induction false} RoundsContents(a: seq<string>, b: seq<string>, c: seq<string>, n: nat)
    ensures multiset(Rounds(a, b, c, n))
         == multiset(a[..MinNat(n, |a|)]) + multiset(b[..MinNat(n, |b|)]) + multiset(c[..MinNat(n, |c|)])
  {
    if n > 0 {
      var k := n - 1;
      RoundsContents(a, b, c, k);
      RoundContents(a, b, c, k);
      RoundsStep(a, b, c, k);
      TakeStep(a, k);
      TakeStep(b, k);
      TakeStep(c, k);
      var pa, pb, pc := multiset(a[..MinNat(k, |a|)]), multiset(b[..MinNat(k, |b|)]), multiset(c[..MinNat(k, |c|)]);
      var ra, rb, rc := multiset(if k < |a| then [a[k]] else []), multiset(if k < |b| then [b[k]] else []),
                        multiset(if k < |c| then [c[k]] else []);
      Regroup(pa, pb, pc, ra, rb, rc);
    }
  }

  lemma RoundsStep(a: seq<string>, b: seq<string>, c: seq<string>, k: nat)
    ensures multiset(Rounds(a, b, c, k + 1)) == multiset(Rounds(a, b, c, k)) + multiset(Round(a, b, c, k))
  {}

  /** The combined list holds every entry of the three lists, each as often
      as it occurs there and nothing else: its length is the sum of theirs. */
  lemma InterleavedIsPermutation(a: seq<string>, b: seq<string>, c: seq<string>)
    ensures multiset(Interleaved(a, b, c)) == multiset(a) + multiset(b) + multiset(c)
    ensures |Interleaved(a, b, c)| == |a| + |b| + |c|
  {
    var n := MaxNat(|a|, MaxNat(|b|, |c|));
    RoundsContents(a, b, c, n);
    assert a[..MinNat(n, |a|)] == a;
    assert b[..MinNat(n, |b|)] == b;
    assert c[..MinNat(n, |c|)] == c;
    assert |multiset(Interleaved(a, b, c))| == |Interleaved(a, b, c)|;
    assert |multiset(a) + multiset(b) + multiset(c)| == |a| + |b| + |c|;
  }

  /** With all three lists non-empty, the list opens science, fun, scale. */
  lemma InterleavedOpening(a: seq<string>, b: seq<string>, c: seq<string>)
    requires 0 < |a| && 0 < |b| && 0 < |c|
    ensures |Interleaved(a, b, c)| >= 3
    ensures Interleaved(a, b, c)[..3] == [a[0], b[0], c[0]]
  {
    var n := MaxNat(|a|, MaxNat(|b|, |c|));
    InterleavedIsPermutation(a, b, c);
    assert Rounds(a, b, c, 1) == [a[0], b[0], c[0]];
    RoundsPrefix(a, b, c, 1, n);
  }

  /** Later rounds only append. */
  lemma {:induction false} RoundsPrefix(a: seq<string>, b: seq<string>, c: seq<string>, k: nat, n: nat)
    requires k <= n
    ensures |Rounds(a, b, c, k)| <= |Rounds(a, b, c, n)|
    ensures Rounds(a, b, c, n)[..|Rounds(a, b, c, k)|] == Rounds(a, b, c, k)
    decreases n - k
  {
    if k < n {
      RoundsPrefix(a, b, c, k, n - 1);
      var p := Rounds(a, b, c, n - 1);
      assert Rounds(a, b, c, n) == p + Round(a, b, c, n - 1);
      assert (p + Round(a, b, c, n - 1))[..|p|] == p;
      assert Rounds(a, b, c, n)[..|Rounds(a, b, c, k)|] == p[..|Rounds(a, b, c, k)|];
    }
  }

  /** The interleaving loop of `getPlanetDescription`. */
  method Interleave(a: seq<string>, b: seq<string>, c: seq<string>) returns (combined: seq<string>)
    ensures combined == Interleaved(a, b, c)
    ensures |combined| == |a| + |b| + |c|
    ensures multiset(combined) == multiset(a) + multiset(b) + multiset(c)
  {
    combined := [];
    var maxLength := MaxNat(|a|, MaxNat(|b|, |c|));
    var i := 0;
    while i < maxLength
      invariant 0 <= i <= maxLength
      invariant combined == Rounds(a, b, c, i)
    {
      if i < |a| { combined := combined + [a[i]]; }
      if i < |b| { combined := combined + [b[i]]; }
      if i < |c| { combined := combined + [c[i]]; }
      i := i + 1;
    }
    InterleavedIsPermutation(a, b, c);
  }

  // ----- The passive scan -----

  /** `TABLE[name] || []`. */
  function Lookup(t: map<string, seq<string>>, name: string): seq<string> {
    if name in t then t[name] else []
  }

  function Combined(tables: Tables, name: string): seq<string> {
    Interleaved(Lookup(tables.science, name), Lookup(tables.fun, name), Lookup(tables.scale, name))
  }

  /** A body's counter; a body never scanned counts from 0. */
  function Counter(usage: map<string, int>, name: string): int {
    if name in usage then usage[name] else 0
  }

  /** One passive scan: the entry at the counter modulo the list length, and
      the counter raised by one; a body with no entries gets `NO_DATA` and
      its counter (set to 0 if it had none) stays. */
  function ScanStep(usage: map<string, int>, tables: Tables, name: string): (string, map<string, int>)
    requires 0 <= Counter(usage, name)
  {
    var c := Counter(usage, name);
    var all := Combined(tables, name);
    if |all| > 0 then (all[c % |all|], usage[name := c + 1]) else (NO_DATA, usage[name := c])
  }

  /** A scan changes only the scanned body's counter, raises it by exactly
      one when there are entries, and returns one of the body's entries, or
      `NO_DATA` exactly when it has none. */
  lemma ScanStepFacts(usage: map<string, int>, tables: Tables, name: string)
    requires 0 <= Counter(usage, name)
    ensures var r := ScanStep(usage, tables, name);
      && (forall other :: other != name ==> Counter(r.1, other) == Counter(usage, other))
      && (|Combined(tables, name)| > 0 ==> Counter(r.1, name) == Counter(usage, name) + 1 && r.0 in Combined(tables, name))
      && (|Combined(tables, name)| == 0 ==> Counter(r.1, name) == Counter(usage, name) && r.0 == NO_DATA)
      && name in r.1
  {}

  /** `n` scans of one body in a row: the texts, in order, and the counters after. */
  function ScanRun(usage: map<string, int>, tables: Tables, name: string, n: nat): (r: (seq<string>, map<string, int>))
    requires 0 <= Counter(usage, name)
    ensures Counter(r.1, name) >= Counter(usage, name)
  {
    if n == 0 then ([], usage)
    else
      var prev := ScanRun(usage, tables, name, n - 1);
      var step := ScanStep(prev.1, tables, name);
      (prev.0 + [step.0], step.1)
  }

  /** Successive scans of one body walk its combined list from the counter
      on, wrapping round at the end; the counter rises by exactly one per
      scan (stays put when there are no entries) and no other body's
      counter moves. */
  lemma {:induction false} ScansCycle(usage: map<string, int>, tables: Tables, name: string, n: nat)
    requires 0 <= Counter(usage, name)
    ensures var r := ScanRun(usage, tables, name, n); var all := Combined(tables, name);
      && |r.0| == n
      && (forall other :: other != name ==> Counter(r.1, other) == Counter(usage, other))
      && (|all| > 0 ==> Counter(r.1, name) == Counter(usage, name) + n)
      && (|all| > 0 ==> forall k :: 0 <= k < n ==> r.0[k] == all[(Counter(usage, name) + k) % |all|])
      && (|all| == 0 ==> Counter(r.1, name) == Counter(usage, name))
      && (|all| == 0 ==> forall k :: 0 <= k < n ==> r.0[k] == NO_DATA)
  {
    if n > 0 {
      ScansCycle(usage, tables, name, n - 1);
      var prev := ScanRun(usage, tables, name, n - 1);
      ScanStepFacts(prev.1, tables, name);
      var r := ScanRun(usage, tables, name, n);
      assert r.0 == prev.0 + [ScanStep(prev.1, tables, name).0];
      forall k | 0 <= k < n - 1
        ensures r.0[k] == prev.0[k]
      {}
    }
  }

  lemma ModSmall(k: nat, n: nat)
    requires k < n
    ensures (0 + k) % n == k
  {}

  /** Scans starting from a body's first one return its entries in order. */
  lemma FirstScansInOrder(usage: map<string, int>, tables: Tables, name: string, n: nat)
    requires name !in usage && n <= |Combined(tables, name)|
    ensures ScanRun(usage, tables, name, n).0 == Combined(tables, name)[..n]
  {
    ScansCycle(usage, tables, name, n);
    var r := ScanRun(usage, tables, name, n);
    var all := Combined(tables, name);
    assert Counter(usage, name) == 0;
    if 0 < n {
      forall k | 0 <= k < n
        ensures r.0[k] == all[..n][k]
      {
        assert r.0[k] == all[(0 + k) % |all|];
        ModSmall(k, |all|);
      }
    }
  }

  /** The deep-scan branch: offline without a client; a reply's text, or the
      default when it is empty; on a failure the rate-limit warning or the
      fallback message `roll` chooses. */
  function DeepScan(hasClient: bool, outcome: Outcome, roll: real): (r: string)
    requires 0.0 <= roll < 1.0
    ensures !hasClient ==> r == SCAN_OFFLINE
    ensures hasClient && outcome.Failure? && IsRateLimit(outcome.error) ==> r == SCAN_RATE_LIMITED
    ensures hasClient && outcome.Failure? && !IsRateLimit(outcome.error) ==> r in FALLBACK_MESSAGES
    ensures hasClient && outcome.Reply? ==> r == (if outcome.text == "" then NO_REPLY else outcome.text)
  {
    if !hasClient then SCAN_OFFLINE
    else match outcome
      case Reply(text) => if text == "" then NO_REPLY else text
      case Failure(e) =>
        if IsRateLimit(e) then SCAN_RATE_LIMITED
        else
          var k := (roll * 4.0).Floor;
          assert 0 <= k < 4;
          FALLBACK_MESSAGES[k]
  }

  // ----- Errors and chat -----

  /** `s.includes(t)`. */
  predicate Contains(s: string, t: string)
    decreases |s|
  {
    |t| <= |s| && (s[..|t|] == t || (0 < |s| && Contains(s[1..], t)))
  }

  /** A string contains whatever is written inside it. */
  lemma {:induction false} ContainsInside(pre: string, t: string, post: string)
    ensures Contains(pre + t + post, t)
    decreases |pre|
  {
    var s := pre + t + post;
    if |pre| == 0 {
      assert s[..|t|] == t;
    } else {
      assert s[1..] == pre[1..] + t + post;
      ContainsInside(pre[1..], t, post);
    }
  }

  /** `isRateLimit`: status or code 429, or a message mentioning '429',
      'quota' or 'RESOURCE_EXHAUSTED'. */
  predicate IsRateLimit(e: ErrorInfo) {
    || e.status == GS.Some(429)
    || e.code == GS.Some(429)
    || (e.message.Some? && (Contains(e.message.value, "429") || Contains(e.message.value, "quota")
                            || Contains(e.message.value, "RESOURCE_EXHAUSTED")))
  }

  /** A message that mentions the quota anywhere counts as a rate limit,
      whatever else it says; a bare error with no status, code or message
      does not. */
  lemma RateLimitExamples(pre: string, post: string)
    ensures IsRateLimit(ErrorInfo(GS.None, GS.None, GS.Some(pre + "quota" + post)))
    ensures !IsRateLimit(ErrorInfo(GS.None, GS.None, GS.None))
    ensures !IsRateLimit(ErrorInfo(GS.Some(500), GS.None, GS.None))
  {
    ContainsInside(pre, "quota", post);
  }

  /** The chat answer for a missing client, a reply and a failure. */
  function ChatAnswer(hasClient: bool, outcome: Outcome): (r: string)
    ensures !hasClient ==> r == CHAT_OFFLINE
    ensures hasClient && outcome.Failure? ==> (r == CHAT_RATE_LIMITED <==> IsRateLimit(outcome.error))
    ensures hasClient && outcome.Failure? && !IsRateLimit(outcome.error) ==> r == CHAT_FAILED
    ensures hasClient && outcome.Reply? ==> r == (if outcome.text == "" then CHAT_NO_REPLY else outcome.text)
  {
    if !hasClient then CHAT_OFFLINE
    else match outcome
      case Reply(text) => if text == "" then CHAT_NO_REPLY else text
      case Failure(e) => if IsRateLimit(e) then CHAT_RATE_LIMITED else CHAT_FAILED
  }

  /** The chat's opening line: near the current planet, or in deep space
      when there is none (an empty name counts as none). */
  function SystemContext(currentPlanet: GS.Option<string>): string {
    if currentPlanet.Some? && currentPlanet.value != "" then
      "You are the ship's AI computer. We are currently near " + currentPlanet.value + "."
    else
      "You are the ship's AI computer. We are in deep space."
  }

  /** Near a named planet the opening line mentions it; with no planet, or
      an empty name, it is the deep-space line. */
  lemma SystemContextNamesPlanet(name: string)
    ensures name != "" ==> Contains(SystemContext(GS.Some(name)), name)
    ensures SystemContext(GS.None) == SystemContext(GS.Some(""))
    ensures SystemContext(GS.None) == "You are the ship's AI computer. We are in deep space."
  {
    if name != "" {
      ContainsInside("You are the ship's AI computer. We are currently near ", name, ".");
    }
  }

  /** One history entry as the context renders it. */
  function Line(msg: Message): string {
    (if msg.role == User then "Pilot" else "Computer") + ": " + msg.content + "\n"
  }

  /** The rendered lines of `msgs`, in order. */
  function Render(msgs: seq<Message>): string {
    if |msgs| == 0 then "" else Render(msgs[..|msgs| - 1]) + Line(msgs[|msgs| - 1])
  }

  /** `slice(-6)`: the last six entries, or all of them when there are fewer. */
  function LastWindow(history: seq<Message>): (r: seq<Message>)
    ensures |r| == MinNat(|history|, CONTEXT_WINDOW)
    ensures r == history[|history| - |r|..]
  {
    if |history| <= CONTEXT_WINDOW then history else history[|history| - CONTEXT_WINDOW..]
  }

  /** Rendering distributes over concatenation. */
  lemma {:induction false} RenderAppend(a: seq<Message>, b: seq<Message>)
    ensures Render(a + b) == Render(a) + Render(b)
    decreases |b|
  {
    if |b| > 0 {
      var b0 := b[..|b| - 1];
      assert (a + b)[..|a + b| - 1] == a + b0;
      RenderAppend(a, b0);
    } else {
      assert a + b == a;
    }
  }

  /** The chat context is the rendering of the last six entries only: older
      history never reaches the prompt, and a single user entry renders as
      one "Pilot: " line. */
  lemma ContextUsesLastSix(older: seq<Message>, recent: seq<Message>, content: string)
    requires |recent| == CONTEXT_WINDOW
    ensures LastWindow(older + recent) == recent
    ensures Render(LastWindow(older + recent)) == Render(recent)
    ensures Render([Message(User, content)]) == "Pilot: " + content + "\n"
    ensures Render([Message(Assistant, content)]) == "Computer: " + content + "\n"
  {
    assert (older + recent)[|older + recent| - CONTEXT_WINDOW..] == recent;
    assert [Message(User, content)][..0] == [];
    assert [Message(Assistant, content)][..0] == [];
  }

  /** The `forEach` over `slice(-6)` that builds `conversationContext`. */
  method ChatContext(history: seq<Message>) returns (ctx: string)
    ensures ctx == Render(LastWindow(history))
  {
    var recent := LastWindow(history);
    ctx := "";
    var i := 0;
    while i < |recent|
      invariant 0 <= i <= |recent|
      invariant ctx == Render(recent[..i])
    {
      assert recent[..i + 1][..i] == recent[..i];
      var msg := recent[i];
      ctx := ctx + (if msg.role == User then "Pilot" else "Computer") + ": " + msg.content + "\n";
      i := i + 1;
    }
    assert recent[..|recent|] == recent;
  }

  /** `usageHistory`, the per-body counters of the passive scan. */
  class Computer {
    var usage: map<string, int>

    ghost predicate Valid()
      reads this
    {
      forall k :: k in usage ==> 0 <= usage[k]
    }

    constructor ()
      ensures Valid() && usage == map[]
    {
      usage := map[];
    }

    /** The passive scan (`getPlanetDescription` with `forceAI` false); the
        800 ms delay before the answer is left out. */
    method PassiveScan(tables: Tables, name: string) returns (text: string)
      requires Valid()
      modifies this
      ensures Valid()
      ensures (text, usage) == ScanStep(old(usage), tables, name)
    {
      var c := Counter(usage, name);
      var combined := Interleave(Lookup(tables.science, name), Lookup(tables.fun, name), Lookup(tables.scale, name));
      if |combined| > 0 {
        text := combined[c % |combined|];
        usage := usage[name := c + 1];
      } else {
        text := NO_DATA;
        usage := usage[name := c];
      }
    }

    /** `getPlanetDescription`: the passive scan, or with `forceAI` the deep
        scan, whose network outcome is given. */
    method Describe(tables: Tables, name: string, forceAI: bool, hasClient: bool, outcome: Outcome, roll: real)
      returns (text: string)
      requires Valid() && 0.0 <= roll < 1.0
      modifies this
      ensures Valid()
      ensures !forceAI ==> (text, usage) == ScanStep(old(usage), tables, name)
      ensures forceAI ==> text == DeepScan(hasClient, outcome, roll) && usage == old(usage)
    {
      if !forceAI {
        text := PassiveScan(tables, name);
        return;
      }
      text := DeepScan(hasClient, outcome, roll);
    }
  }
}
