/**
 * The audio controller's state and decisions: the two volumes, the path rewrite for the
 * low-quality copies, which short sounds play and how loud, the once-per-turn countdown,
 * the in-game track pick, and the background-music switch with its fade step count. The
 * `Audio` elements, timers and play promises are not modelled; every short sound that
 * would start is appended to `played`.
 */
module AudioManager {
  import opened Wrappers
  import opened Strings
  import opened Utils

  const AudioPrefix: string := "assets/audio-assets/"
  const LowPrefix: string := "assets/audio-assets-low/"

  /** `SFX`. */
  const ButtonSfx: string := "assets/audio-assets/efforts/any-button-press.mp3"
  const GameWinSfx: string := "assets/audio-assets/efforts/game-win.mp3"
  const GameLoseSfx: string := "assets/audio-assets/efforts/game-lose.mp3"
  const TurnStartSfx: string := "assets/audio-assets/efforts/turn-start.mp3"
  const TurnWinSfx: string := "assets/audio-assets/efforts/turn-win.mp3"
  const TurnLoseSfx: string := "assets/audio-assets/efforts/turn-lose.mp3"
  const TurnCountdownSfx: string := "assets/audio-assets/efforts/turn-countdown.mp3"

  /** `BGM.inGameTracks`. */
  const InGameTracks: seq<string> := [
    "assets/audio-assets/backgrounds/in-game/a-quiet-joy-stevekaldes-piano.mp3",
    "assets/audio-assets/backgrounds/in-game/april.mp3",
    "assets/audio-assets/backgrounds/in-game/calm-heavenly-raindrops.mp3",
    "assets/audio-assets/backgrounds/in-game/coniferous-forest.mp3",
    "assets/audio-assets/backgrounds/in-game/cozy-morning-instrumental.mp3",
    "assets/audio-assets/backgrounds/in-game/perfect-beauty.mp3",
    "assets/audio-assets/backgrounds/in-game/plea-for-forgiveness-stevekaldes-piano-art-ayla-heefner.mp3",
    "assets/audio-assets/backgrounds/in-game/snow-stevekaldes-piano.mp3"]

  /**
   * `_resolveAudioSrc(src)`: in the web build (pwa), a path under the full-quality folder
   * moves to the low-quality folder; everything else is unchanged.
   */
  function Resolve(pwa: bool, src: string): (r: string)
    ensures !pwa || !StartsWith(src, AudioPrefix) ==> r == src
    ensures pwa && StartsWith(src, AudioPrefix) ==> r == LowPrefix + src[|AudioPrefix|..]
  {
    if src == "" || !pwa then src
    else if StartsWith(src, AudioPrefix) then LowPrefix + src[|AudioPrefix|..]
    else src
  }

  /** A rewritten path is not rewritten again, so resolving twice is resolving once. */
  lemma ResolveIdempotent(pwa: bool, src: string)
    ensures Resolve(pwa, Resolve(pwa, src)) == Resolve(pwa, src)
  {
    var r := Resolve(pwa, src);
    if pwa && StartsWith(src, AudioPrefix) {
      assert r[19] == LowPrefix[19] == '-';
      assert AudioPrefix[19] == '/';
      assert r[..|AudioPrefix|][19] != AudioPrefix[19];
    }
  }

  /** The path `playSfx` starts: resolved, then resolved again by `_getOrCreateSfx`. */
  function SfxPath(pwa: bool, src: string): (r: string)
    ensures r == Resolve(pwa, src)
  {
    ResolveIdempotent(pwa, src);
    Resolve(pwa, Resolve(pwa, src))
  }

  /** A short sound's volume: the requested volume clamped to [0, 1], times the sound volume. */
  function Loudness(volume: real, sfxVolume: real): (r: real)
    ensures 0.0 <= sfxVolume <= 1.0 ==> 0.0 <= r <= 1.0
    ensures 0.0 <= volume <= 1.0 ==> r == volume * sfxVolume
    ensures volume >= 1.0 ==> r == sfxVolume
  {
    var v := Clamp(volume, 0.0, 1.0);
    ScaleFacts(v, sfxVolume);
    v * sfxVolume
  }

  /** `Math.max(0, Math.min(1, v / 100))`. */
  function VolumeOf(v: real): (r: real)
    ensures 0.0 <= r <= 1.0
    ensures 0.0 <= v <= 100.0 ==> r == v / 100.0
  {
    Clamp(v / 100.0, 0.0, 1.0)
  }

  /** `_playBgm`'s fade: `max(1, floor(fadeMs / 30))` steps of 30 ms. */
  function FadeSteps(fadeMs: real): (n: int)
    ensures n >= 1
    ensures fadeMs >= 30.0 ==> n == (fadeMs / 30.0).Floor
    ensures fadeMs < 60.0 ==> n == 1
  {
    var k := (fadeMs / 30.0).Floor;
    if k > 1 then k else 1
  }

  /** The fade fraction after tick i: rises to 1 at the last step and stays there. */
  function FadeLevel(i: nat, steps: int): (t: real)
    requires steps >= 1
    ensures 0.0 <= t <= 1.0
    ensures t == 1.0 <==> i >= steps
  {
    var q := i as real / steps as real;
    if q < 1.0 then q else 1.0
  }

  /** The fade is monotone: a later tick is never quieter for the incoming track. */
  lemma FadeMonotone(i: nat, j: nat, steps: int)
    requires steps >= 1 && i <= j
    ensures FadeLevel(i, steps) <= FadeLevel(j, steps)
  {
    assert i as real / steps as real <= j as real / steps as real;
  }

  /** The same list without x. */
  function Without(s: seq<string>, x: string): (r: seq<string>)
    ensures |r| <= |s| && forall k :: 0 <= k < |r| ==> r[k] != x && r[k] in s
    ensures (exists k :: 0 <= k < |s| && s[k] != x) ==> r != []
  {
    if s == [] then []
    else if s[0] == x then Without(s[1..], x)
    else [s[0]] + Without(s[1..], x)
  }

  /** A short sound as it starts: its path and its volume. */
  datatype Playback = Playback(src: string, volume: real)

  class AudioManager {
    const pwa: bool
    var sfxVolume: real
    var bgmVolume: real
    var countdownPlayed: bool
    var lastInGameTrack: Option<string>
    var currentBgm: Option<string>
    var desiredBgm: Option<string>
    var played: seq<Playback>

    /** Both volumes are fractions. */
    predicate Valid()
      reads this
    {
      0.0 <= sfxVolume <= 1.0 && 0.0 <= bgmVolume <= 1.0
    }

    /** The object literal: volumes 0.8 and 0.6, nothing playing. */
    constructor(webBuild: bool)
      ensures pwa == webBuild && sfxVolume == 0.8 && bgmVolume == 0.6 && !countdownPlayed
      ensures lastInGameTrack.None? && currentBgm.None? && desiredBgm.None? && played == []
      ensures Valid()
    {
      pwa := webBuild;
      sfxVolume, bgmVolume, countdownPlayed := 0.8, 0.6, false;
      lastInGameTrack, currentBgm, desiredBgm, played := None, None, None, [];
    }

    /** `setSfxVolume(v)`: a non-finite number (None) is ignored; otherwise v percent, clamped. */
    method SetSfxVolume(v: Option<real>)
      requires Valid()
      modifies this
      ensures sfxVolume == if v.Some? then VolumeOf(v.value) else old(sfxVolume)
      ensures bgmVolume == old(bgmVolume) && countdownPlayed == old(countdownPlayed) && played == old(played)
      ensures lastInGameTrack == old(lastInGameTrack) && currentBgm == old(currentBgm) && desiredBgm == old(desiredBgm)
      ensures Valid()
    {
      if v.Some? {
        sfxVolume := VolumeOf(v.value);
      }
    }

    /** `setBgmVolume(v)`, the same rule for the music. */
    method SetBgmVolume(v: Option<real>)
      requires Valid()
      modifies this
      ensures bgmVolume == if v.Some? then VolumeOf(v.value) else old(bgmVolume)
      ensures sfxVolume == old(sfxVolume) && countdownPlayed == old(countdownPlayed) && played == old(played)
      ensures lastInGameTrack == old(lastInGameTrack) && currentBgm == old(currentBgm) && desiredBgm == old(desiredBgm)
      ensures Valid()
    {
      if v.Some? {
        bgmVolume := VolumeOf(v.value);
      }
    }

    /**
     * `playSfx(src, volume)`: silent for an empty path or a zero sound volume; otherwise the
     * rewritten path starts at the clamped volume times the sound volume.
     */
    method PlaySfx(src: string, volume: real)
      requires Valid()
      modifies this
      ensures src == "" || sfxVolume <= 0.0 ==> played == old(played)
      ensures src != "" && sfxVolume > 0.0 ==> played == old(played) + [Playback(Resolve(pwa, src), Loudness(volume, sfxVolume))]
      ensures forall k :: |old(played)| <= k < |played| ==> 0.0 <= played[k].volume <= 1.0
      ensures sfxVolume == old(sfxVolume) && bgmVolume == old(bgmVolume) && countdownPlayed == old(countdownPlayed)
      ensures lastInGameTrack == old(lastInGameTrack) && currentBgm == old(currentBgm) && desiredBgm == old(desiredBgm)
      ensures Valid()
    {
      if src == "" || sfxVolume <= 0.0 {
        return;
      }
      // `_getOrCreateSfx` resolves the already resolved path once more
      var path := SfxPath(pwa, src);
      played := played + [Playback(path, Loudness(volume, sfxVolume))];
    }

    /** `playTurnStart`: the start sound, and the countdown may sound again. */
    method PlayTurnStart()
      requires Valid()
      modifies this
      ensures played == old(played) + (if sfxVolume <= 0.0 then [] else [Playback(Resolve(pwa, TurnStartSfx), sfxVolume)])
      ensures !countdownPlayed
      ensures sfxVolume == old(sfxVolume) && bgmVolume == old(bgmVolume)
      ensures lastInGameTrack == old(lastInGameTrack) && currentBgm == old(currentBgm) && desiredBgm == old(desiredBgm)
      ensures Valid()
    {
      PlaySfx(TurnStartSfx, 1.0);
      countdownPlayed := false;
    }

    /** `playTurnCountdownOnce`: the countdown sound at most once until the next turn start. */
    method PlayTurnCountdownOnce()
      requires Valid()
      modifies this
      ensures old(countdownPlayed) ==> played == old(played)
      ensures !old(countdownPlayed) ==> played == old(played) + (if sfxVolume <= 0.0 then [] else [Playback(Resolve(pwa, TurnCountdownSfx), sfxVolume)])
      ensures countdownPlayed
      ensures sfxVolume == old(sfxVolume) && bgmVolume == old(bgmVolume)
      ensures lastInGameTrack == old(lastInGameTrack) && currentBgm == old(currentBgm) && desiredBgm == old(desiredBgm)
      ensures Valid()
    {
      if countdownPlayed {
        return;
      }
      countdownPlayed := true;
      PlaySfx(TurnCountdownSfx, 1.0);
    }

    /** `playTurnResult`: nothing on a tie, the win sound iff the player scored more. */
    method PlayTurnResult(playerScore: real, aiScore: real)
      requires Valid()
      modifies this
      ensures playerScore == aiScore || sfxVolume <= 0.0 ==> played == old(played)
      ensures playerScore != aiScore && sfxVolume > 0.0 ==>
        played == old(played) + [Playback(Resolve(pwa, if playerScore > aiScore then TurnWinSfx else TurnLoseSfx), sfxVolume)]
      ensures sfxVolume == old(sfxVolume) && bgmVolume == old(bgmVolume) && countdownPlayed == old(countdownPlayed)
      ensures lastInGameTrack == old(lastInGameTrack) && currentBgm == old(currentBgm) && desiredBgm == old(desiredBgm)
      ensures Valid()
    {
      if playerScore == aiScore {
        return;
      }
      PlaySfx(if playerScore > aiScore then TurnWinSfx else TurnLoseSfx, 1.0);
    }

    /** `playGameResult`. */
    method PlayGameResult(playerWins: bool)
      requires Valid()
      modifies this
      ensures played == old(played) + (if sfxVolume <= 0.0 then [] else [Playback(Resolve(pwa, if playerWins then GameWinSfx else GameLoseSfx), sfxVolume)])
      ensures sfxVolume == old(sfxVolume) && bgmVolume == old(bgmVolume) && countdownPlayed == old(countdownPlayed)
      ensures lastInGameTrack == old(lastInGameTrack) && currentBgm == old(currentBgm) && desiredBgm == old(desiredBgm)
      ensures Valid()
    {
      PlaySfx(if playerWins then GameWinSfx else GameLoseSfx, 1.0);
    }

    /**
     * `_playBgm(next, fadeMs)`: the same track already playing is left alone (None);
     * otherwise the rewritten track becomes the wanted one and the current one, and a fade
     * of the returned number of steps starts. With no track, only a playing one fades out.
     */
    method PlayBgm(next: Option<string>, fadeMs: real, currentPaused: bool) returns (fade: Option<int>)
      modifies this
      ensures var target := if next.Some? && next.value != "" then Some(Resolve(pwa, next.value)) else None;
        if target.Some? && target == old(currentBgm) && !currentPaused then
          fade.None? && desiredBgm == old(desiredBgm) && currentBgm == old(currentBgm)
        else
          && desiredBgm == target
          && currentBgm == (if target.Some? then target else old(currentBgm))
          && fade == (if target.None? && old(currentBgm).None? then None else Some(FadeSteps(fadeMs)))
      ensures fade.Some? ==> fade.value >= 1
      ensures sfxVolume == old(sfxVolume) && bgmVolume == old(bgmVolume) && countdownPlayed == old(countdownPlayed)
      ensures lastInGameTrack == old(lastInGameTrack) && played == old(played)
    {
      var target := if next.Some? && next.value != "" then Some(Resolve(pwa, next.value)) else None;
      if target.Some? && target == currentBgm && !currentPaused {
        return None;
      }
      desiredBgm := target;
      if target.None? {
        if currentBgm.None? {
          return None;
        }
        return Some(FadeSteps(fadeMs));
      }
      currentBgm := target;
      fade := Some(FadeSteps(fadeMs));
    }

    /**
     * `playInGameBgm`: a random track; when it repeats the last pick, a random one of the
     * others instead. The pick is recorded and differs from the previous one.
     */
    method PlayInGameBgm(fadeMs: real, firstDraw: real, secondDraw: real, currentPaused: bool) returns (pick: string)
      requires 0.0 <= firstDraw < 1.0 && 0.0 <= secondDraw < 1.0
      modifies this
      ensures pick in InGameTracks
      ensures old(lastInGameTrack) != Some(pick)
      ensures lastInGameTrack == Some(pick)
      ensures currentBgm == Some(Resolve(pwa, pick))
      ensures Some(Resolve(pwa, pick)) == old(currentBgm) && !currentPaused ==> desiredBgm == old(desiredBgm)
      ensures !(Some(Resolve(pwa, pick)) == old(currentBgm) && !currentPaused) ==> desiredBgm == Some(Resolve(pwa, pick))
      ensures sfxVolume == old(sfxVolume) && bgmVolume == old(bgmVolume) && countdownPlayed == old(countdownPlayed) && played == old(played)
    {
      pick := Pick(InGameTracks, firstDraw);
      if Some(pick) == lastInGameTrack {
        assert InGameTracks[0] != InGameTracks[1];
        var alt := Without(InGameTracks, pick);
        pick := Pick(alt, secondDraw);
      }
      lastInGameTrack := Some(pick);
      var _ := PlayBgm(Some(pick), fadeMs, currentPaused);
    }

    /** `stopBgm`: fade out the current track, if there is one. */
    method StopBgm(fadeMs: real, currentPaused: bool) returns (fade: Option<int>)
      modifies this
      ensures old(currentBgm).None? ==> fade.None? && desiredBgm == old(desiredBgm)
      ensures old(currentBgm).Some? ==> fade == Some(FadeSteps(fadeMs)) && desiredBgm.None?
      ensures currentBgm == old(currentBgm)
      ensures sfxVolume == old(sfxVolume) && bgmVolume == old(bgmVolume) && countdownPlayed == old(countdownPlayed)
      ensures lastInGameTrack == old(lastInGameTrack) && played == old(played)
    {
      if currentBgm.None? {
        return None;
      }
      fade := PlayBgm(None, fadeMs, currentPaused);
    }
  }
}
