/** AdSense's choice between the A4A rendering pathway and the 3p iframe
    (extensions/amp-ad-network-adsense-impl/0.1/adsense-a4a-config.js): the environment test, the
    `a4a=` URL parameter that forces a branch of the traffic experiment, and the decision that tags
    the ad element with the branch it landed on. The traffic-experiment service is abstract state:
    forced branches and set-up calls are recorded on the host window, and its two answers
    (`isExperimentOn`, `getPageExperimentBranch`) are parameters. */
module AdsenseA4AConfig {
  import opened Js
  import opened Text

  /** The experiment's id and the ids of its two branches. */
  const GOOGLE_A4A_EXPT_ID := "expA4A"
  const CONTROL_BRANCH := "117152630"
  const EXPERIMENT_BRANCH := "117152631"

  datatype Branches = Branches(control: string, experiment: string)

  /** `a4aExperimentInfo`: the one experiment and its branches. */
  const A4A_EXPERIMENT_INFO: map<string, Branches> :=
    map[GOOGLE_A4A_EXPT_ID := Branches(CONTROL_BRANCH, EXPERIMENT_BRANCH)]

  /** The argument of `forceExperimentBranch`: `false` (the experiment is disabled) or a branch id. */
  datatype Forced = ForcedOff | ForcedBranch(branch: string)

  /** `win.crypto`, when present, and whether it has `subtle` or `webkitSubtle`. */
  datatype Crypto = Crypto(subtle: bool, webkitSubtle: bool)

  /** The ad's host window, as far as the configuration reads and changes it. `proxyOrigin` is the
      answer of `isProxyOrigin(win.location)`. */
  class HostWindow {
    const crypto: Option<Crypto>
    const proxyOrigin: bool
    const search: string

    /** The traffic-experiment service's state on this page. */
    var forced: map<string, Forced>
    var setUp: seq<map<string, Branches>>

    constructor (crypto: Option<Crypto>, proxyOrigin: bool, search: string)
      ensures this.crypto == crypto && this.proxyOrigin == proxyOrigin && this.search == search
      ensures forced == map[] && setUp == []
    {
      this.crypto := crypto;
      this.proxyOrigin := proxyOrigin;
      this.search := search;
      forced := map[];
      setUp := [];
    }

    /** `forceExperimentBranch(win, id, value)`. */
    method ForceExperimentBranch(id: string, value: Forced)
      modifies this`forced
      ensures forced == old(forced)[id := value]
    {
      forced := forced[id := value];
    }

    /** `setupPageExperiments(win, info)`; how the service then picks a branch is not modelled. */
    method SetupPageExperiments(info: map<string, Branches>)
      modifies this`setUp
      ensures setUp == old(setUp) + [info]
    {
      setUp := setUp + [info];
    }
  }

  /** The ad element; `addExperimentIdToElement` appends to its experiment-id attribute. */
  class AdElement {
    var experimentIds: seq<string>

    constructor ()
      ensures experimentIds == []
    {
      experimentIds := [];
    }

    method AddExperimentId(id: string)
      modifies this`experimentIds
      ensures experimentIds == old(experimentIds) + [id]
    {
      experimentIds := experimentIds + [id];
    }
  }

  /** isAdsenseA4AValidEnvironment: native crypto, and a proxy origin or local development mode. */
  predicate IsAdsenseA4AValidEnvironment(win: HostWindow, localDev: bool) {
    && win.crypto.Some? && (win.crypto.value.subtle || win.crypto.value.webkitSubtle)
    && (win.proxyOrigin || localDev)
  }

  /** `(?:\?|&)a4a=([0-9]+)` matches at i: a `?` or `&`, the text `a4a=`, and at least one digit. */
  predicate ParamAt(s: string, i: nat) {
    i < |s| && (s[i] == '?' || s[i] == '&') && HasAt(s, i + 1, "a4a=") && i + 5 < |s| && IsDigit(s[i + 5])
  }

  /** The leftmost position at or after i where the parameter pattern matches. */
  function FirstParamFrom(s: string, i: nat): (r: Option<nat>)
    requires i <= |s|
    ensures r.Some? ==> i <= r.value < |s| && ParamAt(s, r.value)
    ensures r.Some? ==> forall k :: i <= k < r.value ==> !ParamAt(s, k)
    ensures r.None? ==> forall k: nat :: i <= k ==> !ParamAt(s, k)
    decreases |s| - i
  {
    if ParamAt(s, i) then Some(i)
    else if i == |s| then None
    else FirstParamFrom(s, i + 1)
  }

  /** Group 1 of `/(?:\?|&)a4a=([0-9]+)/.exec(search)`: absent when nothing matches; otherwise the
      longest digit run after the leftmost `?a4a=` or `&a4a=`. */
  function A4aParam(search: string): (r: Option<string>)
    ensures r.None? <==> forall k: nat :: !ParamAt(search, k)
    ensures r.Some? ==> exists i: nat :: ParamAt(search, i)
                          && (forall k :: 0 <= k < i ==> !ParamAt(search, k))
                          && r.value == search[i + 5..DigitRunEnd(search, i + 5)]
    ensures r.Some? ==> |r.value| > 0 && forall k :: 0 <= k < |r.value| ==> IsDigit(r.value[k])
  {
    match FirstParamFrom(search, 0)
    case None => None
    case Some(i) =>
      var a := i + 5;
      var value := search[a..DigitRunEnd(search, a)];
      assert forall k :: 0 <= k < |value| ==> IsDigit(value[k]) by {
        forall k | 0 <= k < |value| ensures IsDigit(value[k]) {
          assert value[k] == search[a + k];
        }
      }
      Some(value)
  }

  /** What handleUrlParameters does for a search string: nothing without the parameter; `0`
      disables the experiment, `1` forces control, `2` forces the experiment branch; any other
      digit string reaches the default case, whose warning reads the undeclared `params` and so
      throws a ReferenceError instead of warning. */
  function UrlParameterAction(search: string): (r: Completion<Option<Forced>>)
    ensures r == Normal(None) <==> A4aParam(search).None?
    ensures r.Throw? <==> A4aParam(search).Some? && A4aParam(search).value !in {"0", "1", "2"}
    ensures r.Throw? ==> r.error == ReferenceError
    ensures r.Normal? && r.value.Some? && r.value.value.ForcedBranch? ==>
              r.value.value.branch in {CONTROL_BRANCH, EXPERIMENT_BRANCH}
  {
    match A4aParam(search)
    case None => Normal(None)
    case Some(value) =>
      if value == "0" then Normal(Some(ForcedOff))
      else if value == "1" then Normal(Some(ForcedBranch(A4A_EXPERIMENT_INFO[GOOGLE_A4A_EXPT_ID].control)))
      else if value == "2" then Normal(Some(ForcedBranch(A4A_EXPERIMENT_INFO[GOOGLE_A4A_EXPT_ID].experiment)))
      else Throw(ReferenceError)
  }

  /** handleUrlParameters: forces the experiment's branch as `UrlParameterAction` says, and forces
      nothing when it throws or finds no parameter. */
  method HandleUrlParameters(win: HostWindow) returns (r: Completion<()>)
    modifies win`forced
    ensures var action := UrlParameterAction(win.search);
      && (action.Throw? ==> r == Throw(action.error) && win.forced == old(win.forced))
      && (action == Normal(None) ==> r == Normal(()) && win.forced == old(win.forced))
      && (action.Normal? && action.value.Some? ==>
            r == Normal(()) && win.forced == old(win.forced)[GOOGLE_A4A_EXPT_ID := action.value.value])
  {
    var a4aParam := A4aParam(win.search);
    if a4aParam.Some? {
      var value := a4aParam.value;
      if value == "0" {
        win.ForceExperimentBranch(GOOGLE_A4A_EXPT_ID, ForcedOff);
      } else if value == "1" {
        win.ForceExperimentBranch(GOOGLE_A4A_EXPT_ID, ForcedBranch(A4A_EXPERIMENT_INFO[GOOGLE_A4A_EXPT_ID].control));
      } else if value == "2" {
        win.ForceExperimentBranch(GOOGLE_A4A_EXPT_ID, ForcedBranch(A4A_EXPERIMENT_INFO[GOOGLE_A4A_EXPT_ID].experiment));
      } else {
        // dev.warn(..., params['a4a']): `params` is not declared
        return Throw(ReferenceError);
      }
    }
    return Normal(());
  }

  /** The two branches of the experiment have different ids, so an element tagged with one was not
      tagged for the other, and the page-branch test picks exactly one of them. */
  lemma BranchesAreExclusive()
    ensures GOOGLE_A4A_EXPT_ID in A4A_EXPERIMENT_INFO
    ensures A4A_EXPERIMENT_INFO[GOOGLE_A4A_EXPT_ID].control != A4A_EXPERIMENT_INFO[GOOGLE_A4A_EXPT_ID].experiment
  {
    assert CONTROL_BRANCH[8] != EXPERIMENT_BRANCH[8];
  }

  /** The leftmost parameter wins, whatever follows it. */
  lemma LeftmostParameterWins()
    ensures UrlParameterAction("?a4a=2&a4a=1") == Normal(Some(ForcedBranch(EXPERIMENT_BRANCH)))
  {
    var s := "?a4a=2&a4a=1";
    assert ParamAt(s, 0) by { assert s[1..5] == "a4a="; }
    assert DigitRunEnd(s, 5) == 6 by { assert DigitRunEnd(s, 6) == 6; }
    assert FirstParamFrom(s, 0) == Some(0);
    assert s[5..6] == "2";
  }

  /** The parameter must follow `?` or `&`: a name that merely ends in `a4a` is not it. */
  lemma ParameterNeedsSeparator()
    ensures UrlParameterAction("?xa4a=1") == Normal(None)
  {
    var s := "?xa4a=1";
    assert !ParamAt(s, 0) by { assert s[1..5][0] == 'x'; }
    assert FirstParamFrom(s, 1) == None by {
      assert FirstParamFrom(s, 7) == None;
      assert FirstParamFrom(s, 6) == None;
      assert FirstParamFrom(s, 5) == None;
      assert FirstParamFrom(s, 4) == None;
      assert FirstParamFrom(s, 3) == None;
      assert FirstParamFrom(s, 2) == None;
    }
  }

  /** A value other than 0, 1 or 2, such as a leading zero, throws instead of warning. */
  lemma UnknownValueThrows()
    ensures UrlParameterAction("&a4a=02") == Throw(ReferenceError)
  {
    var s := "&a4a=02";
    assert ParamAt(s, 0) by { assert s[1..5] == "a4a="; }
    assert DigitRunEnd(s, 5) == 7 by { assert DigitRunEnd(s, 7) == 7; assert DigitRunEnd(s, 6) == 7; }
    assert FirstParamFrom(s, 0) == Some(0);
    assert s[5..7] == "02";
  }

  /** adsenseIsA4AEnabled. In a valid environment it forces the branch the URL parameter names,
      sets the experiment up and, when the page is in the experiment, tags the element with exactly
      one branch id and answers true exactly for the experiment branch. In any other environment it touches nothing
      and answers false. A throw from the URL parameter escapes before the set-up. */
  method AdsenseIsA4AEnabled(win: HostWindow, localDev: bool, element: AdElement,
                             experimentOn: bool, pageBranch: Option<string>) returns (r: Completion<bool>)
    modifies win`forced, win`setUp, element`experimentIds
    ensures r == Normal(true) <==>
              && IsAdsenseA4AValidEnvironment(win, localDev) && UrlParameterAction(win.search).Normal?
              && experimentOn && pageBranch == Some(EXPERIMENT_BRANCH)
    ensures r.Throw? <==> IsAdsenseA4AValidEnvironment(win, localDev) && UrlParameterAction(win.search).Throw?
    ensures r.Throw? ==> r.error == ReferenceError
    ensures !IsAdsenseA4AValidEnvironment(win, localDev) ==>
              && r == Normal(false) && win.forced == old(win.forced) && win.setUp == old(win.setUp)
              && element.experimentIds == old(element.experimentIds)
    ensures IsAdsenseA4AValidEnvironment(win, localDev) && UrlParameterAction(win.search).Throw? ==>
              && win.forced == old(win.forced) && win.setUp == old(win.setUp)
              && element.experimentIds == old(element.experimentIds)
    ensures IsAdsenseA4AValidEnvironment(win, localDev) && UrlParameterAction(win.search).Normal? ==>
              && win.forced == (match UrlParameterAction(win.search).value
                                case Some(f) => old(win.forced)[GOOGLE_A4A_EXPT_ID := f]
                                case None => old(win.forced))
              && win.setUp == old(win.setUp) + [A4A_EXPERIMENT_INFO]
              && element.experimentIds == old(element.experimentIds) +
                   (if !experimentOn then []
                    else if r == Normal(true) then [EXPERIMENT_BRANCH]
                    else [CONTROL_BRANCH])
  {
    if IsAdsenseA4AValidEnvironment(win, localDev) {
      var handled := HandleUrlParameters(win);
      if handled.Throw? {
        return Throw(handled.error);
      }
      win.SetupPageExperiments(A4A_EXPERIMENT_INFO);
      if experimentOn {
        var branches := A4A_EXPERIMENT_INFO[GOOGLE_A4A_EXPT_ID];
        if pageBranch == Some(branches.experiment) {
          element.AddExperimentId(branches.experiment);
          return Normal(true);
        } else {
          element.AddExperimentId(branches.control);
          return Normal(false);
        }
      }
    }
    return Normal(false);
  }
}
