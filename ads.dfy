/// The ad manager (Services/AdManager.cs): an interstitial ad after every
/// fifth level scored at 256 points or more, a rewarded ad on request, and
/// the bookkeeping when an ad finishes. The ad service itself stands outside
/// the model: whether an ad is ready is a parameter, and showing one is
/// recorded as its placement being appended to `shown`.
module Ads {
  import Profile

  /// Qualifying levels needed before an interstitial ad is shown.
  const LEVELS_PLAYED_AD_LIMIT: int := 5
  /// The score from which a level counts towards the next interstitial.
  const QUALIFYING_SCORE: int := 256

  const INTERSTITIAL_IOS: string := "Interstitial_iOS"
  const REWARDED_IOS: string := "Rewarded_iOS"
  const INTERSTITIAL_ANDROID: string := "Interstitial_Android"
  const REWARDED_ANDROID: string := "Rewarded_Android"

  /// The build target: the ad code is compiled only for Android and iOS.
  datatype Platform = Android | IOS | Other

  /// How an ad ended, as the ad service reports it.
  datatype ShowResult = Failed | Skipped | Finished

  predicate IsRewarded(placementId: string)
  {
    placementId == REWARDED_ANDROID || placementId == REWARDED_IOS
  }

  predicate IsInterstitial(placementId: string)
  {
    placementId == INTERSTITIAL_ANDROID || placementId == INTERSTITIAL_IOS
  }

  /// The interstitial placement of a platform that has ads.
  function InterstitialPlacement(platform: Platform): (r: string)
    requires platform != Other
    ensures IsInterstitial(r) && !IsRewarded(r)
  {
    if platform == Android then INTERSTITIAL_ANDROID else INTERSTITIAL_IOS
  }

  /// The rewarded placement of a platform that has ads.
  function RewardedPlacement(platform: Platform): (r: string)
    requires platform != Other
    ensures IsRewarded(r) && !IsInterstitial(r)
  {
    if platform == Android then REWARDED_ANDROID else REWARDED_IOS
  }

  /** `InterstitialAdReady` on the counter of qualifying levels: a score of
      256 or more adds one; the ad is due once the count reaches five, and a
      due ad resets the count to zero while an ad not due keeps it. */
  function AdCounter(counter: int, score: int): (r: (int, bool))
    ensures var bumped := if score >= QUALIFYING_SCORE then counter + 1 else counter;
            && (r.1 <==> bumped >= LEVELS_PLAYED_AD_LIMIT)
            && (r.1 ==> r.0 == 0)
            && (!r.1 ==> r.0 == bumped)
    ensures 0 <= counter < LEVELS_PLAYED_AD_LIMIT ==> 0 <= r.0 < LEVELS_PLAYED_AD_LIMIT
  {
    var bumped := if score >= QUALIFYING_SCORE then counter + 1 else counter;
    if bumped >= LEVELS_PLAYED_AD_LIMIT then (0, true) else (bumped, false)
  }

  /** The number of qualifying scores in a run of levels: none exactly when
      every score falls short, all exactly when every score qualifies. */
  function Qualifying(scores: seq<int>): (r: nat)
    ensures r <= |scores|
    ensures r == 0 <==> forall i :: 0 <= i < |scores| ==> scores[i] < QUALIFYING_SCORE
    ensures r == |scores| <==> forall i :: 0 <= i < |scores| ==> scores[i] >= QUALIFYING_SCORE
  {
    if scores == [] then 0
    else (if scores[0] >= QUALIFYING_SCORE then 1 else 0) + Qualifying(scores[1..])
  }

  /// `InterstitialAdReady` after each level of a run: the counter it leaves and how many ads were due.
  function AdsOverRun(counter: int, scores: seq<int>): (int, nat)
    decreases |scores|
  {
    if scores == [] then (counter, 0)
    else
      var (next, due) := AdCounter(counter, scores[0]);
      var (last, ads) := AdsOverRun(next, scores[1..]);
      (last, ads + if due then 1 else 0)
  }

  /** Over any run of levels from a counter below five, exactly one ad is due
      per five qualifying levels, counting those already on the counter, and
      the counter ends on the remainder. */
  lemma {:induction false} AdsOverRunCounts(counter: int, scores: seq<int>)
    requires 0 <= counter < LEVELS_PLAYED_AD_LIMIT
    ensures AdsOverRun(counter, scores) ==
      ((counter + Qualifying(scores)) % LEVELS_PLAYED_AD_LIMIT, (counter + Qualifying(scores)) / LEVELS_PLAYED_AD_LIMIT)
    decreases |scores|
  {
    if scores != [] {
      var (next, due) := AdCounter(counter, scores[0]);
      AdsOverRunCounts(next, scores[1..]);
      var q := Qualifying(scores[1..]);
      if due {
        assert counter == 4 && next == 0 && Qualifying(scores) == q + 1;
        assert (counter + q + 1) / 5 == q / 5 + 1;
        assert (counter + q + 1) % 5 == q % 5;
      }
    }
  }

  /** The ad manager's state: whether an ad is on screen, whether an
      interstitial was watched to the end, whether the audio is muted for an
      ad, how many token rewards were granted, and the placements shown. */
  class AdManager {
    const platform: Platform
    var adIsRunning: bool
    var interstitialAdIsViewed: bool
    var audioMuted: bool
    /// Calls to the round's `RewardTokens`, which is not part of this model.
    var rewardsGranted: nat
    var shown: seq<string>

    /// `Awake`: no interstitial has been viewed, and no ad is running.
    constructor (platform: Platform)
      ensures this.platform == platform
      ensures !adIsRunning && !interstitialAdIsViewed && !audioMuted && rewardsGranted == 0 && shown == []
    {
      this.platform := platform;
      adIsRunning := false;
      interstitialAdIsViewed := false;
      audioMuted := false;
      rewardsGranted := 0;
      shown := [];
    }

    /** `PlayInterstitialAd`: on a platform with ads and with the ad ready, an
        ad is running and the interstitial is shown; otherwise nothing
        happens. It does not check for an ad already running. */
    method PlayInterstitialAd(ready: bool)
      modifies this`adIsRunning, this`shown
      ensures platform == Other || !ready ==> unchanged(this)
      ensures platform != Other && ready ==>
        adIsRunning && shown == old(shown) + [InterstitialPlacement(platform)]
    {
      if platform == Other || !ready {
        return;
      }
      adIsRunning := true;
      shown := shown + [InterstitialPlacement(platform)];
    }

    /** `PlayRewardedAd`: ignored while an ad is running; otherwise as
        `PlayInterstitialAd`, with the rewarded placement. */
    method PlayRewardedAd(ready: bool)
      modifies this`adIsRunning, this`shown
      ensures old(adIsRunning) || platform == Other || !ready ==> unchanged(this)
      ensures !old(adIsRunning) && platform != Other && ready ==>
        adIsRunning && shown == old(shown) + [RewardedPlacement(platform)]
    {
      if adIsRunning {
        return;
      }
      if platform == Other || !ready {
        return;
      }
      adIsRunning := true;
      shown := shown + [RewardedPlacement(platform)];
    }

    /// `OnUnityAdsDidStart`: the audio is muted while the ad plays.
    method OnUnityAdsDidStart(placementId: string)
      modifies this`audioMuted
      ensures audioMuted
    {
      audioMuted := true;
    }

    /** `OnUnityAdsDidFinish`: a rewarded ad grants its reward when it
        finished and also when it failed, but not when it was skipped; an
        interstitial counts as viewed only when it finished. Afterwards no ad
        is running and the audio is back on. */
    method OnUnityAdsDidFinish(placementId: string, result: ShowResult)
      modifies this`rewardsGranted, this`interstitialAdIsViewed, this`adIsRunning, this`audioMuted
      ensures rewardsGranted == old(rewardsGranted) + (if IsRewarded(placementId) && result != Skipped then 1 else 0)
      ensures interstitialAdIsViewed == (old(interstitialAdIsViewed) || (IsInterstitial(placementId) && result == Finished))
      ensures !adIsRunning && !audioMuted
    {
      match result {
        case Failed =>
          if IsRewarded(placementId) {
            rewardsGranted := rewardsGranted + 1;
          }
        case Skipped =>
        case Finished =>
          if IsRewarded(placementId) {
            rewardsGranted := rewardsGranted + 1;
          }
          if IsInterstitial(placementId) {
            interstitialAdIsViewed := true;
          }
      }
      adIsRunning := false;
      audioMuted := false;
    }

    /** `InterstitialAdReady` on the profile's counter: the counter and the
        answer are those of `AdCounter`. */
    method InterstitialAdReady(score: int, gm: Profile.GameManager) returns (adReady: bool)
      modifies gm`levelsPlayedUntilDisplayAd
      ensures (gm.levelsPlayedUntilDisplayAd, adReady) == AdCounter(old(gm.levelsPlayedUntilDisplayAd), score)
    {
      if score >= QUALIFYING_SCORE {
        gm.levelsPlayedUntilDisplayAd := gm.levelsPlayedUntilDisplayAd + 1;
      }
      adReady := gm.levelsPlayedUntilDisplayAd >= LEVELS_PLAYED_AD_LIMIT;
      if !adReady {
        return false;
      }
      gm.levelsPlayedUntilDisplayAd := 0;
      return adReady;
    }
  }
}
