/**
 * The usage statistics of atlasprint/plausible.py: `request_stat_event`
 * sends at most one event per hour and none when an environment flag says
 * so, and `_send_stat_event` derives the URL, the domain and the version
 * strings it posts.
 *
 * The environment flags, the clock (seconds since the epoch), the plugin,
 * QGIS and Python versions and the application name are inputs; the POST
 * itself is left out, and its reply is only "an error was reported or not".
 */
module Stats {
  import opened Wrappers
  import opened Text

  /** At most one event per this many seconds. */
  const MinSeconds: int := 3600

  const DomainLizcloud: string := "plugin.server.lizcloud"
  const DomainProd: string := "plugin.server.lizmap.com"
  const UrlProd: string := "https://bourbon.3liz.com/api/event"
  const DomainTest: string := DomainProd
  const UrlTest: string := "https://plausible.snap.3liz.net/api/event"

  // ---------------------------------------------------------------------
  // What `_send_stat_event` derives

  /** A development version of the plugin turns debugging on. */
  predicate IsDebug(pluginVersion: string) {
    pluginVersion in ["master", "dev"]
  }

  function EventUrl(debug: bool): string {
    if debug then UrlTest else UrlProd
  }

  /** The application name contains `lizcloud`, in any case. */
  predicate IsLizcloud(applicationName: string) {
    Contains(Lower(applicationName), "lizcloud")
  }

  function EventDomain(lizcloud: bool, debug: bool): (r: string)
    ensures r == DomainLizcloud <==> lizcloud
  {
    if lizcloud then DomainLizcloud else if debug then DomainTest else DomainProd
  }

  /** `version.split('-')[0]`: the version without its release name. */
  function VersionFull(version: string): string {
    Split(version, "-")[0]
  }

  /** `xs[0:2]`: the first two elements, or all of them when there are fewer. */
  function FirstTwo(xs: seq<string>): (r: seq<string>)
    ensures |r| == if |xs| < 2 then |xs| else 2
    ensures forall i :: 0 <= i < |r| ==> r[i] == xs[i]
  {
    xs[..if 2 < |xs| then 2 else |xs|]
  }

  /** `'.'.join(full.split('.')[0:2])`: the first two components. */
  function VersionBranch(full: string): string {
    Join(FirstTwo(Split(full, ".")), ".")
  }

  /** The inputs `_send_stat_event` reads. */
  datatype SendInputs = SendInputs(
    pluginVersion: string,
    applicationName: string,
    qgisVersion: string,
    pythonVersion: string,
    replyError: bool)

  /** The event that is posted. */
  datatype StatEvent = StatEvent(
    url: string,
    domain: string,
    pluginVersion: string,
    qgisVersionFull: string,
    qgisVersionBranch: string,
    pythonVersionFull: string,
    pythonVersionBranch: string)

  function EventOf(inputs: SendInputs): (e: StatEvent)
    ensures e.url == UrlTest <==> IsDebug(inputs.pluginVersion)
    ensures e.domain == DomainLizcloud <==> IsLizcloud(inputs.applicationName)
    ensures e.domain != DomainLizcloud ==> e.domain == DomainProd
    ensures StartsWith(inputs.qgisVersion, e.qgisVersionFull) && StartsWith(e.qgisVersionFull, e.qgisVersionBranch)
    ensures StartsWith(e.pythonVersionFull, e.pythonVersionBranch)
    ensures !IsDebug(inputs.pluginVersion) ==> e.url == UrlProd
    ensures e.pluginVersion == inputs.pluginVersion && e.pythonVersionFull == inputs.pythonVersion
    ensures !Contains(e.qgisVersionFull, "-")
    ensures inputs.qgisVersion == e.qgisVersionFull || StartsWith(inputs.qgisVersion, e.qgisVersionFull + "-")
    ensures Split(e.qgisVersionBranch, ".") == FirstTwo(Split(e.qgisVersionFull, "."))
    ensures e.qgisVersionBranch == e.qgisVersionFull || StartsWith(e.qgisVersionFull, e.qgisVersionBranch + ".")
    ensures Split(e.pythonVersionBranch, ".") == FirstTwo(Split(e.pythonVersionFull, "."))
    ensures e.pythonVersionBranch == e.pythonVersionFull || StartsWith(e.pythonVersionFull, e.pythonVersionBranch + ".")
  {
    var debug := IsDebug(inputs.pluginVersion);
    var full := VersionFull(inputs.qgisVersion);
    VersionPrefixes(inputs.qgisVersion);
    BranchPrefix(inputs.pythonVersion);
    VersionFullParts(inputs.qgisVersion);
    VersionBranchParts(full);
    VersionBranchParts(inputs.pythonVersion);
    StatEvent(EventUrl(debug), EventDomain(IsLizcloud(inputs.applicationName), debug), inputs.pluginVersion,
              full, VersionBranch(full), inputs.pythonVersion, VersionBranch(inputs.pythonVersion))
  }

  /**
   * `_send_stat_event` as written: on lizcloud, when the reply reports an
   * error, `message + r.error()` adds an enumeration value to a string and
   * raises TypeError.
   */
  function SendStatEventAsWritten(inputs: SendInputs): (r: Result<bool, string>)
    ensures r.Success? ==> r.value
  {
    if !IsLizcloud(inputs.applicationName) then Success(true)
    else if inputs.replyError then Failure("TypeError: can only concatenate str (not \"NetworkError\") to str")
    else Success(true)
  }

  /** `_send_stat_event` with the error converted to text before it is logged: it always reports a send. */
  function SendStatEvent(inputs: SendInputs): (r: Result<bool, string>)
    ensures r == Success(true)
  {
    if !IsLizcloud(inputs.applicationName) then Success(true)
    else if inputs.replyError then Success(true)
    else Success(true)
  }

  /**
   * On lizcloud, a reply that reports an error makes the function as written
   * raise instead of returning True; the corrected one returns True.
   */
  lemma AsWrittenRaisesOnLizcloudError(inputs: SendInputs)
    requires IsLizcloud(inputs.applicationName) && inputs.replyError
    ensures SendStatEventAsWritten(inputs).Failure? && SendStatEvent(inputs) == Success(true)
  {
  }

  /** The input that shows it: application name `Lizcloud`, reply with an error. */
  lemma LizcloudErrorExample()
    ensures SendStatEventAsWritten(SendInputs("1.0.0", "Lizcloud", "3.34.6-Prizren", "3.10.12", true)).Failure?
  {
    assert Lower("Lizcloud") == "lizcloud";
    assert StartsWith(Lower("Lizcloud"), "lizcloud");
  }

  // ---------------------------------------------------------------------
  // The throttle of `request_stat_event`

  /** One call of `request_stat_event`: the two flags, the time, and whether the send reported success. */
  datatype Attempt = Attempt(skipStats: bool, onCi: bool, now: int, sent: bool)

  /** The answer of one call and the new `previous_date`. */
  datatype StatAnswer = StatAnswer(requested: bool, previous: Option<int>)

  function StatStep(previous: Option<int>, a: Attempt): (r: StatAnswer)
    ensures !r.requested ==> r.previous == previous
    ensures r.requested <==> (!a.skipStats && !a.onCi && a.sent &&
      (previous.None? || a.now - previous.value >= MinSeconds))
    ensures r.requested ==> r.previous == Some(a.now)
  {
    if a.skipStats then StatAnswer(false, previous)
    else if a.onCi then StatAnswer(false, previous)
    else if previous.Some? && a.now - previous.value < MinSeconds then StatAnswer(false, previous)
    else if a.sent then StatAnswer(true, Some(a.now))
    else StatAnswer(false, previous)
  }

  class Plausible {
    var previousDate: Option<int>

    constructor ()
      ensures previousDate.None?
    {
      previousDate := None;
    }

    /** `request_stat_event` at time `now`, sending the event described by `inputs`. */
    method RequestStatEvent(skipStats: bool, onCi: bool, now: int, inputs: SendInputs) returns (r: bool)
      modifies this
      ensures StatAnswer(r, previousDate) ==
        StatStep(old(previousDate), Attempt(skipStats, onCi, now, SendStatEvent(inputs).value))
    {
      if skipStats {
        return false;
      }
      if onCi {
        return false;
      }
      if previousDate.Some? && now - previousDate.value < MinSeconds {
        return false;
      }
      var sent := SendStatEvent(inputs);
      if sent.value {
        previousDate := Some(now);
        return true;
      }
      return false;
    }
  }

  // ---------------------------------------------------------------------
  // What the throttle promises over a run

  /** The answers of successive calls starting from `previous`, and the final `previous_date`. */
  function Replay(previous: Option<int>, attempts: seq<Attempt>): (r: (seq<bool>, Option<int>))
    ensures |r.0| == |attempts|
    decreases |attempts|
  {
    if |attempts| == 0 then ([], previous)
    else
      var first := StatStep(previous, attempts[0]);
      var rest := Replay(first.previous, attempts[1..]);
      ([first.requested] + rest.0, rest.1)
  }

  /** Every event sent in a run is at least an hour after the last one sent before the run. */
  lemma {:induction false} SentAfterPrevious(previous: Option<int>, attempts: seq<Attempt>, j: nat)
    requires j < |attempts| && Replay(previous, attempts).0[j] && previous.Some?
    ensures attempts[j].now >= previous.value + MinSeconds
    decreases |attempts|
  {
    var first := StatStep(previous, attempts[0]);
    if j > 0 {
      assert Replay(first.previous, attempts[1..]).0[j - 1] == Replay(previous, attempts).0[j];
      SentAfterPrevious(first.previous, attempts[1..], j - 1);
      assert attempts[1..][j - 1] == attempts[j];
    }
  }

  /** Any two events sent in a run are at least MinSeconds apart, whatever the clock does. */
  lemma {:induction false} SentAtMostHourly(previous: Option<int>, attempts: seq<Attempt>, i: nat, j: nat)
    requires i < j < |attempts|
    requires Replay(previous, attempts).0[i] && Replay(previous, attempts).0[j]
    ensures attempts[j].now - attempts[i].now >= MinSeconds
    decreases |attempts|
  {
    var first := StatStep(previous, attempts[0]);
    var rest := attempts[1..];
    assert Replay(first.previous, rest).0[j - 1] == Replay(previous, attempts).0[j];
    assert rest[j - 1] == attempts[j];
    if i == 0 {
      SentAfterPrevious(first.previous, rest, j - 1);
    } else {
      assert Replay(first.previous, rest).0[i - 1] == Replay(previous, attempts).0[i];
      assert rest[i - 1] == attempts[i];
      SentAtMostHourly(first.previous, rest, i - 1, j - 1);
    }
  }

  /** With the flags unset and the hour elapsed, a call always sends, since a send always reports success. */
  lemma RequestSendsWhenDue(previous: Option<int>, now: int, inputs: SendInputs)
    requires previous.None? || now - previous.value >= MinSeconds
    ensures StatStep(previous, Attempt(false, false, now, SendStatEvent(inputs).value)) == StatAnswer(true, Some(now))
  {
  }

  // ---------------------------------------------------------------------
  // Version strings

  /** The full version is a prefix of the version, and the branch a prefix of the full version. */
  lemma VersionPrefixes(version: string)
    ensures StartsWith(version, VersionFull(version))
    ensures StartsWith(VersionFull(version), VersionBranch(VersionFull(version)))
  {
    SplitPrefixJoin(version, "-", 1);
    assert Split(version, "-")[..1] == [Split(version, "-")[0]];
    BranchPrefix(VersionFull(version));
  }

  /** The branch is a prefix of the version it is taken from. */
  lemma BranchPrefix(full: string)
    ensures StartsWith(full, VersionBranch(full))
  {
    SplitPrefixJoin(full, ".", 2);
  }

  /**
   * The full version is the text before the first `-`: it has no `-`, and
   * it is the whole version or is followed by a `-`.
   */
  lemma VersionFullParts(version: string)
    ensures !Contains(VersionFull(version), "-")
    ensures version == VersionFull(version) || StartsWith(version, VersionFull(version) + "-")
  {
    var ps := Split(version, "-");
    SplitPieces(version, "-");
    SplitJoin(version, "-");
    if |ps| > 1 {
      assert version == ps[0] + "-" + Join(ps[1..], "-");
      assert (ps[0] + "-" + Join(ps[1..], "-"))[..|ps[0] + "-"|] == ps[0] + "-";
    }
  }

  /**
   * The branch is made of the first two `.`-components of the full version,
   * and it is the whole full version or is followed by a `.`.
   */
  lemma VersionBranchParts(full: string)
    ensures Split(VersionBranch(full), ".") == FirstTwo(Split(full, "."))
    ensures VersionBranch(full) == full || StartsWith(full, VersionBranch(full) + ".")
  {
    var ps := Split(full, ".");
    var head := FirstTwo(ps);
    SplitPieces(full, ".");
    forall i | 0 <= i < |head| ensures forall k :: 0 <= k < |head[i]| ==> head[i][k] != '.' {
      NoCharOfAbsent(head[i], '.');
    }
    SplitJoinedPieces(head, '.');
    SplitJoin(full, ".");
    if |ps| > 2 {
      assert ps == head + ps[2..];
      JoinAppend(head, ps[2..], ".");
      var b := Join(head, ".");
      assert full == b + "." + Join(ps[2..], ".");
      assert (b + "." + Join(ps[2..], "."))[..|b + "."|] == b + ".";
    } else {
      assert head == ps;
    }
  }

  /** `a.b.rest-name` has the full version `a.b.rest` and the branch `a.b`. */
  lemma {:induction false} VersionOfParts(a: string, b: string, rest: string, name: string)
    requires !Contains(a, ".") && !Contains(b, ".")
    requires !Contains(a, "-") && !Contains(b, "-") && !Contains(rest, "-")
    ensures VersionFull(a + "." + b + "." + rest + "-" + name) == a + "." + b + "." + rest
    ensures VersionBranch(a + "." + b + "." + rest) == a + "." + b
  {
    var full := a + "." + b + "." + rest;
    assert full + "-" + name == full + ['-'] + name;
    SplitAtChar(full, '-', name);
    assert !Contains(full, "-") by {
      NoCharInJoin(a, b, rest, '.', '-');
    }
    SplitAbsent(full, "-");
    assert full == a + ['.'] + (b + "." + rest);
    SplitAtChar(a, '.', b + "." + rest);
    assert b + "." + rest == b + ['.'] + rest;
    SplitAtChar(b, '.', rest);
    SplitAbsent(a, ".");
    SplitAbsent(b, ".");
    var parts := Split(full, ".");
    assert parts == [a] + ([b] + Split(rest, "."));
    assert |parts| > 2 && parts[..2] == [a, b];
    assert [a, b][1..] == [b];
    assert Join([a, b], ".") == a + "." + b;
  }

  /** A character that is not in the pieces nor the separator is not in their concatenation. */
  lemma NoCharInJoin(a: string, b: string, rest: string, sep: char, c: char)
    requires sep != c && !Contains(a, [c]) && !Contains(b, [c]) && !Contains(rest, [c])
    ensures !Contains(a + [sep] + b + [sep] + rest, [c])
  {
    var s := a + [sep] + b + [sep] + rest;
    forall k | 0 <= k < |s| ensures s[k] != c {
      if k < |a| {
        assert s[k] == a[k] && !Occurs(a, [c], k) && a[k..k + 1] == [a[k]];
      } else if k == |a| {
      } else if k < |a| + 1 + |b| {
        var m := k - |a| - 1;
        assert s[k] == b[m] && !Occurs(b, [c], m) && b[m..m + 1] == [b[m]];
      } else if k == |a| + 1 + |b| {
      } else {
        var m := k - |a| - 2 - |b|;
        assert s[k] == rest[m] && !Occurs(rest, [c], m) && rest[m..m + 1] == [rest[m]];
      }
    }
    AbsentWithoutHead(s, [c]);
  }

  /** The comment's example: QGIS 3.34.6-Prizren is full version 3.34.6 on branch 3.34. */
  lemma QgisVersionExample()
    ensures VersionFull("3.34.6-Prizren") == "3.34.6"
    ensures VersionBranch("3.34.6") == "3.34"
  {
    AbsentWithoutHead("3", ".");
    AbsentWithoutHead("34", ".");
    AbsentWithoutHead("3", "-");
    AbsentWithoutHead("34", "-");
    AbsentWithoutHead("6", "-");
    assert "3" + "." + "34" + "." + "6" + "-" + "Prizren" == "3.34.6-Prizren";
    assert "3" + "." + "34" + "." + "6" == "3.34.6";
    assert "3" + "." + "34" == "3.34";
    VersionOfParts("3", "34", "6", "Prizren");
  }
}
