/**
 * The sound manager: a settings table keyed by sound name, a bounded cache
 * of loaded clips, one looping background (BGM) source with a cancellable
 * fade-out, and one effect (SFX) source that plays one-shots.
 *
 * Engine objects are identities: a clip is a ClipId, the two audio sources
 * are the fields below. A coroutine is a begin method that runs its body up
 * to the first `yield` and a step method for each resumption.
 */
module Sound {
  import opened Wrappers
  import opened TemplateData
  import Paths
  import Mathf

  /** The most clips the cache is meant to hold (MAX_CACHE_COUNT). */
  const MaxCacheCount: nat := 20

  /** The duration FadeOutRoutine uses in place of a non-positive one. */
  const MinFadeDuration: real := 0.01

  /** A loaded AudioClip, by identity. */
  type ClipId = nat

  datatype AudioType = WAV | MPEG | OGGVORBIS | UNKNOWN

  /** The decoder chosen for a file, from its extension ignoring case. */
  function GetAudioType(path: string): AudioType {
    var ext := Paths.Lower(Paths.Extension(path));
    if ext == ".wav" then WAV
    else if ext == ".mp3" then MPEG
    else if ext == ".ogg" then OGGVORBIS
    else UNKNOWN
  }

  /** "stem.name" decodes by name alone: wav, mp3 and ogg in any case, anything else unknown. */
  lemma AudioTypeOfFileName(stem: string, name: string)
    requires name != []
    requires forall k :: 0 <= k < |name| ==> Paths.IsExtensionChar(name[k])
    ensures Paths.Lower(name) == "wav" ==> GetAudioType(stem + "." + name) == WAV
    ensures Paths.Lower(name) == "mp3" ==> GetAudioType(stem + "." + name) == MPEG
    ensures Paths.Lower(name) == "ogg" ==> GetAudioType(stem + "." + name) == OGGVORBIS
    ensures Paths.Lower(name) != "wav" && Paths.Lower(name) != "mp3" && Paths.Lower(name) != "ogg"
            ==> GetAudioType(stem + "." + name) == UNKNOWN
  {
    Paths.ExtensionOfName(stem, name);
    Paths.LowerAppend(".", name);
    var l := Paths.Lower(name);
    assert Paths.Lower("." + name) == "." + l;
    assert ".wav" == "." + "wav" && ".mp3" == "." + "mp3" && ".ogg" == "." + "ogg";
    DotPrefix(l, "wav");
    DotPrefix(l, "mp3");
    DotPrefix(l, "ogg");
  }

  lemma DotPrefix(l: string, w: string)
    ensures ("." + l == "." + w) == (l == w)
  {
    if "." + l == "." + w {
      assert l == ("." + l)[1..];
    }
  }

  /** A path without an extension dot is never decoded as a known type. */
  lemma PathWithoutDotIsUnknown(path: string)
    requires forall k :: 0 <= k < |path| ==> path[k] != '.'
    ensures GetAudioType(path) == UNKNOWN
  {
    Paths.NoDotNoExtension(path);
  }

  // ---------------------------------------------------------------------
  // The settings table

  /** The table after adding, in order, each sound whose key is not present yet. */
  function AddAllIfAbsent(table: map<string, SoundSetting>, sounds: seq<SoundSetting>): map<string, SoundSetting>
    decreases |sounds|
  {
    if sounds == [] then table
    else
      var s := sounds[0];
      AddAllIfAbsent(if s.key in table then table else table[s.key := s], sounds[1..])
  }

  /** The table LoadSoundSettings builds from an empty one for a loaded settings file. */
  function SettingsTable(settings: Option<Settings>): map<string, SoundSetting> {
    if settings.Some? && settings.value.sounds.Some? then AddAllIfAbsent(map[], settings.value.sounds.value)
    else map[]
  }

  function KeysOf(sounds: seq<SoundSetting>): set<string> {
    set i | 0 <= i < |sounds| :: sounds[i].key
  }

  /** Entries already in the table are never replaced. */
  lemma {:induction false} AddAllKeepsExisting(table: map<string, SoundSetting>, sounds: seq<SoundSetting>, k: string)
    requires k in table
    ensures k in AddAllIfAbsent(table, sounds) && AddAllIfAbsent(table, sounds)[k] == table[k]
    decreases |sounds|
  {
    if sounds != [] {
      var s := sounds[0];
      AddAllKeepsExisting(if s.key in table then table else table[s.key := s], sounds[1..], k);
    }
  }

  /** The table ends up keyed by exactly the old keys and the sounds' keys. */
  lemma {:induction false} AddAllKeys(table: map<string, SoundSetting>, sounds: seq<SoundSetting>)
    ensures AddAllIfAbsent(table, sounds).Keys == table.Keys + KeysOf(sounds)
    decreases |sounds|
  {
    if sounds != [] {
      var s := sounds[0];
      AddAllKeys(if s.key in table then table else table[s.key := s], sounds[1..]);
      assert KeysOf(sounds) == {s.key} + KeysOf(sounds[1..]) by {
        forall k | k in KeysOf(sounds) ensures k in {s.key} + KeysOf(sounds[1..]) {
          var i :| 0 <= i < |sounds| && sounds[i].key == k;
          if i > 0 { assert sounds[1..][i - 1] == sounds[i]; }
        }
        forall k | k in KeysOf(sounds[1..]) ensures k in KeysOf(sounds) {
          var i :| 0 <= i < |sounds[1..]| && sounds[1..][i].key == k;
          assert sounds[i + 1] == sounds[1..][i];
        }
      }
    }
  }

  /** For a new key, the first sound carrying it is the one kept; later duplicates are ignored. */
  lemma {:induction false} FirstEntryWins(table: map<string, SoundSetting>, sounds: seq<SoundSetting>, j: nat)
    requires j < |sounds| && sounds[j].key !in table
    requires forall i :: 0 <= i < j ==> sounds[i].key != sounds[j].key
    ensures sounds[j].key in AddAllIfAbsent(table, sounds)
    ensures AddAllIfAbsent(table, sounds)[sounds[j].key] == sounds[j]
    decreases j
  {
    var s := sounds[0];
    var next := if s.key in table then table else table[s.key := s];
    if j == 0 {
      AddAllKeepsExisting(next, sounds[1..], s.key);
    } else {
      assert sounds[1..][j - 1] == sounds[j];
      FirstEntryWins(next, sounds[1..], j - 1);
    }
  }

  // ---------------------------------------------------------------------
  // The manager

  datatype LoadResult = Loaded(clip: ClipId) | LoadFailed

  /** A LoadAndPlayRoutine suspended on its web request. */
  datatype PendingLoad = PendingLoad(setting: SoundSetting, isBGM: bool, path: string, audioType: AudioType)

  /** The state of a running FadeOutRoutine. */
  datatype FadeOut = FadeOut(startVolume: real, duration: real, timer: real)

  datatype OneShot = OneShot(clip: ClipId, volume: real)

  /** One Resources.UnloadAsset call, with the cache key the clip was held under. */
  datatype Unload = Unload(key: string, clip: ClipId)

  /** The manager's cache, loads and sources at one moment. */
  datatype Snapshot = Snapshot(
    clipCache: map<string, ClipId>, unloads: seq<Unload>, pending: map<nat, PendingLoad>, nextTicket: nat,
    bgmClip: Option<ClipId>, bgmVolume: real, bgmPlaying: bool, sfxClip: Option<ClipId>, oneShots: seq<OneShot>)

  class SoundManager {
    const streamingAssetsPath: string
    /** Path.Combine, left uninterpreted. */
    const combine: (string, string) -> string

    var soundSettings: map<string, SoundSetting>
    var clipCache: map<string, ClipId>
    /** Suspended load routines by ticket; a ticket names one routine. */
    var pending: map<nat, PendingLoad>
    var nextTicket: nat
    var unloads: seq<Unload>

    // The BGM source.
    var bgmClip: Option<ClipId>
    var bgmVolume: real
    var bgmPlaying: bool
    /** The running fade-out, which is also the fade handle: None is a null handle. */
    var bgmFade: Option<FadeOut>

    // The SFX source: its clip is never assigned; one-shots are recorded in order.
    var sfxClip: Option<ClipId>
    var oneShots: seq<OneShot>

    ghost predicate Valid()
      reads this
    {
      && (forall t :: t in pending ==> t < nextTicket)
      && (bgmFade.Some? ==> bgmFade.value.duration > 0.0 && bgmFade.value.timer >= 0.0)
    }

    /** The cache plus the loads that may still add to it stay within MaxCacheCount. */
    ghost predicate WithinCapacity()
      reads this
    {
      |clipCache| + |pending| <= MaxCacheCount
    }

    /** Awake: InitSources, then LoadSoundSettings from the loaded settings (None: no file). */
    constructor (streamingAssetsPath: string, combine: (string, string) -> string, settings: Option<Settings>)
      ensures Valid() && WithinCapacity()
      ensures this.streamingAssetsPath == streamingAssetsPath && this.combine == combine
      ensures soundSettings == SettingsTable(settings)
      ensures clipCache == map[] && pending == map[] && unloads == []
      ensures bgmClip == None && bgmVolume == 1.0 && !bgmPlaying && bgmFade == None
      ensures sfxClip == None && oneShots == []
    {
      this.streamingAssetsPath := streamingAssetsPath;
      this.combine := combine;
      soundSettings := map[];
      clipCache := map[];
      pending := map[];
      nextTicket := 0;
      unloads := [];
      bgmClip := None;
      bgmVolume := 1.0;
      bgmPlaying := false;
      bgmFade := None;
      sfxClip := None;
      oneShots := [];
      new;
      LoadSoundSettings(settings);
    }

    /** Adds each configured sound whose key is not present yet, in file order. */
    method LoadSoundSettings(settings: Option<Settings>)
      modifies this`soundSettings
      ensures settings.Some? && settings.value.sounds.Some? ==>
                soundSettings == AddAllIfAbsent(old(soundSettings), settings.value.sounds.value)
      ensures !(settings.Some? && settings.value.sounds.Some?) ==> soundSettings == old(soundSettings)
    {
      if settings.Some? && settings.value.sounds.Some? {
        var sounds := settings.value.sounds.value;
        var i := 0;
        while i < |sounds|
          invariant 0 <= i <= |sounds|
          invariant AddAllIfAbsent(soundSettings, sounds[i..]) == AddAllIfAbsent(old(soundSettings), sounds)
        {
          var s := sounds[i];
          assert sounds[i..][1..] == sounds[i + 1..];
          if s.key !in soundSettings {
            soundSettings := soundSettings[s.key := s];
          }
          i := i + 1;
        }
        assert sounds[i..] == [];
      }
    }

    /** The request a missed load sends: the clip's path under the streaming assets, with '/' separators. */
    function Request(setting: SoundSetting, isBGM: bool): PendingLoad {
      var path := Paths.ReplaceBackslashes(combine(streamingAssetsPath, setting.clipPath));
      PendingLoad(setting, isBGM, path, GetAudioType(path))
    }

    /** The fields playback and loading change, as a value to compare a later state against. */
    function Snap(): Snapshot
      reads this`clipCache, this`unloads, this`pending, this`nextTicket
      reads this`bgmClip, this`bgmVolume, this`bgmPlaying, this`sfxClip, this`oneShots
    {
      Snapshot(clipCache, unloads, pending, nextTicket, bgmClip, bgmVolume, bgmPlaying, sfxClip, oneShots)
    }

    /** Neither source has changed since s0. */
    predicate PlaybackUnchanged(s0: Snapshot)
      reads this`bgmClip, this`bgmVolume, this`bgmPlaying, this`sfxClip, this`oneShots
    {
      bgmClip == s0.bgmClip && bgmVolume == s0.bgmVolume && bgmPlaying == s0.bgmPlaying
      && sfxClip == s0.sfxClip && oneShots == s0.oneShots
    }

    /**
     * The effect of playing clip since s0: on BGM, a clip that is already
     * current and playing only gets its volume reset, any other replaces the
     * current clip and starts; on SFX a one-shot is played and the source's
     * clip is kept.
     */
    predicate Played(s0: Snapshot, setting: SoundSetting, clip: ClipId, isBGM: bool)
      reads this`bgmClip, this`bgmVolume, this`bgmPlaying, this`sfxClip, this`oneShots
    {
      if isBGM then
        && sfxClip == s0.sfxClip && oneShots == s0.oneShots
        && bgmVolume == setting.volume
        && if s0.bgmClip == Some(clip) && s0.bgmPlaying then
             bgmClip == s0.bgmClip && bgmPlaying == s0.bgmPlaying
           else
             bgmClip == Some(clip) && bgmPlaying
      else
        && bgmClip == s0.bgmClip && bgmVolume == s0.bgmVolume && bgmPlaying == s0.bgmPlaying
        && sfxClip == s0.sfxClip
        && oneShots == s0.oneShots + [OneShot(clip, setting.volume)]
    }

    /** On a miss with a full cache exactly one entry held at s0 is removed and unloaded; otherwise nothing is. */
    ghost predicate MadeRoom(s0: Snapshot)
      reads this`clipCache, this`unloads
    {
      if |s0.clipCache| >= MaxCacheCount then
        exists v :: v in s0.clipCache && clipCache == s0.clipCache - {v}
                    && unloads == s0.unloads + [Unload(v, s0.clipCache[v])]
      else
        clipCache == s0.clipCache && unloads == s0.unloads
    }

    /**
     * LoadAndPlayRoutine up to its first suspension, begun at s0: a hit plays
     * the cached clip at once and leaves the cache as it was; a miss makes
     * room and suspends on a new request, identified by the returned ticket.
     */
    ghost predicate LoadBegun(s0: Snapshot, setting: SoundSetting, isBGM: bool, ticket: Option<nat>)
      reads this`clipCache, this`unloads, this`pending, this`nextTicket
      reads this`bgmClip, this`bgmVolume, this`bgmPlaying, this`sfxClip, this`oneShots
    {
      if setting.key in s0.clipCache then
        && ticket == None
        && clipCache == s0.clipCache && unloads == s0.unloads
        && pending == s0.pending && nextTicket == s0.nextTicket
        && Played(s0, setting, s0.clipCache[setting.key], isBGM)
      else
        && ticket == Some(s0.nextTicket)
        && nextTicket == s0.nextTicket + 1
        && pending == s0.pending[s0.nextTicket := Request(setting, isBGM)]
        && MadeRoom(s0)
        && PlaybackUnchanged(s0)
    }

    method Play(setting: SoundSetting, clip: ClipId, isBGM: bool)
      modifies this`bgmClip, this`bgmVolume, this`bgmPlaying, this`oneShots
      ensures Played(old(Snap()), setting, clip, isBGM)
    {
      if isBGM {
        if bgmClip == Some(clip) && bgmPlaying {
          bgmVolume := setting.volume;
          return;
        }
        bgmClip := Some(clip);
        bgmVolume := setting.volume;
        bgmPlaying := true;
      } else {
        oneShots := oneShots + [OneShot(clip, setting.volume)];
      }
    }

    /** The cache-management step of a miss. */
    method MakeRoom()
      modifies this`clipCache, this`unloads
      ensures MadeRoom(old(Snap()))
      ensures old(|clipCache|) <= MaxCacheCount ==> |clipCache| < MaxCacheCount
    {
      if |clipCache| >= MaxCacheCount {
        assert clipCache.Keys != {};
        var victim :| victim in clipCache;
        var oldClip := clipCache[victim];
        clipCache := clipCache - {victim};
        unloads := unloads + [Unload(victim, oldClip)];
        assert clipCache.Keys == old(clipCache).Keys - {victim};
      }
    }

    /** A hit: the cached clip is played at once. */
    method LoadAndPlayHit(setting: SoundSetting, isBGM: bool)
      requires setting.key in clipCache
      modifies this`bgmClip, this`bgmVolume, this`bgmPlaying, this`oneShots
      ensures Played(old(Snap()), setting, clipCache[setting.key], isBGM)
    {
      Play(setting, clipCache[setting.key], isBGM);
    }

    /** A miss: room is made and the routine suspends on a new request. */
    method LoadAndPlayMiss(setting: SoundSetting, isBGM: bool) returns (ticket: nat)
      requires Valid()
      modifies this`clipCache, this`unloads, this`pending, this`nextTicket
      ensures Valid()
      ensures ticket == old(nextTicket) && nextTicket == old(nextTicket) + 1
      ensures pending == old(pending)[ticket := Request(setting, isBGM)]
      ensures MadeRoom(old(Snap()))
      ensures old(pending) == map[] && old(|clipCache|) <= MaxCacheCount ==> WithinCapacity()
    {
      MakeRoom();
      ticket := nextTicket;
      assert nextTicket !in pending;
      ghost var n := |pending|;
      pending := pending[nextTicket := Request(setting, isBGM)];
      assert |pending| == n + 1;
      nextTicket := nextTicket + 1;
    }

    method LoadAndPlayBegin(setting: SoundSetting, isBGM: bool) returns (ticket: Option<nat>)
      requires Valid()
      modifies this`clipCache, this`unloads, this`pending, this`nextTicket
      modifies this`bgmClip, this`bgmVolume, this`bgmPlaying, this`oneShots
      ensures Valid()
      ensures LoadBegun(old(Snap()), setting, isBGM, ticket)
      ensures old(pending) == map[] && old(|clipCache|) <= MaxCacheCount ==> WithinCapacity()
    {
      if setting.key in clipCache {
        LoadAndPlayHit(setting, isBGM);
        ticket := None;
      } else {
        var t := LoadAndPlayMiss(setting, isBGM);
        ticket := Some(t);
      }
    }

    /**
     * LoadAndPlayRoutine resumed when its request finishes. A loaded clip is
     * a new object, so it is neither cached nor on the BGM source; it is
     * added under setting.key and played; when that key was added meanwhile
     * by an overlapping load, Dictionary.Add throws and the routine ends
     * with nothing added or played. A failed load adds and plays nothing and
     * leaves any eviction made for it in place.
     */
    method LoadAndPlayComplete(ticket: nat, result: LoadResult)
      requires Valid() && ticket in pending
      requires result.Loaded? ==> result.clip !in clipCache.Values && bgmClip != Some(result.clip)
      modifies this`clipCache, this`pending
      modifies this`bgmClip, this`bgmVolume, this`bgmPlaying, this`oneShots
      ensures Valid()
      ensures pending == old(pending) - {ticket}
      ensures old(WithinCapacity()) ==> WithinCapacity()
      ensures var p := old(pending[ticket]);
              if result.Loaded? && p.setting.key !in old(clipCache) then
                clipCache == old(clipCache)[p.setting.key := result.clip] && Played(old(Snap()), p.setting, result.clip, p.isBGM)
              else
                clipCache == old(clipCache) && PlaybackUnchanged(old(Snap()))
      ensures var p := old(pending[ticket]);
              result.Loaded? && p.setting.key !in old(clipCache) && p.isBGM ==>
                bgmClip == Some(result.clip) && bgmPlaying
    {
      var p := pending[ticket];
      pending := pending - {ticket};
      if result.Loaded? && p.setting.key !in clipCache {
        clipCache := clipCache[p.setting.key := result.clip];
        Play(p.setting, result.clip, p.isBGM);
      }
    }

    /** Unknown keys do nothing; otherwise any fade is cancelled and the clip loaded and played on BGM. */
    method PlayBGM(key: string) returns (ticket: Option<nat>)
      requires Valid()
      modifies this`clipCache, this`unloads, this`pending, this`nextTicket, this`bgmFade
      modifies this`bgmClip, this`bgmVolume, this`bgmPlaying, this`oneShots
      ensures Valid()
      ensures key !in soundSettings ==> ticket == None && unchanged(this)
      ensures key in soundSettings ==> bgmFade == None && LoadBegun(old(Snap()), soundSettings[key], true, ticket)
      ensures old(pending) == map[] && old(|clipCache|) <= MaxCacheCount ==> WithinCapacity()
    {
      if key !in soundSettings {
        return None;
      }
      var setting := soundSettings[key];
      if bgmFade.Some? {
        bgmFade := None;
      }
      ticket := LoadAndPlayBegin(setting, true);
    }

    /** Unknown keys do nothing; otherwise the clip is loaded and played as a one-shot. */
    method PlaySFX(key: string) returns (ticket: Option<nat>)
      requires Valid()
      modifies this`clipCache, this`unloads, this`pending, this`nextTicket
      modifies this`bgmClip, this`bgmVolume, this`bgmPlaying, this`oneShots
      ensures Valid()
      ensures key !in soundSettings ==> ticket == None && unchanged(this)
      ensures key in soundSettings ==> LoadBegun(old(Snap()), soundSettings[key], false, ticket)
      ensures old(pending) == map[] && old(|clipCache|) <= MaxCacheCount ==> WithinCapacity()
    {
      if key !in soundSettings {
        return None;
      }
      ticket := LoadAndPlayBegin(soundSettings[key], false);
    }

    /** Cancels any fade, leaving a null handle, and stops the BGM source. */
    method StopBGM()
      modifies this`bgmFade, this`bgmPlaying
      ensures bgmFade == None && !bgmPlaying
    {
      if bgmFade.Some? {
        bgmFade := None;
      }
      bgmPlaying := false;
    }

    /**
     * A no-op unless BGM is playing; otherwise any running fade is replaced
     * by a new one from the current volume, run up to its first yield.
     */
    method FadeOutBGM(duration: real, dt: real)
      requires Valid() && dt >= 0.0
      modifies this`bgmFade, this`bgmVolume, this`bgmPlaying
      ensures Valid()
      ensures bgmPlaying == old(bgmPlaying)
      ensures !old(bgmPlaying) ==> unchanged(this)
      ensures old(bgmPlaying) ==>
                var d := if duration <= 0.0 then MinFadeDuration else duration;
                && bgmFade == Some(FadeOut(old(bgmVolume), d, dt))
                && bgmVolume == Mathf.Lerp(old(bgmVolume), 0.0, dt / d)
    {
      if !bgmPlaying {
        return;
      }
      var d := if duration <= 0.0 then MinFadeDuration else duration;
      bgmFade := Some(FadeOut(bgmVolume, d, 0.0));
      FadeOutStep(dt);
    }

    /**
     * One resumption of FadeOutRoutine: its loop guard and, while the timer
     * is short of the duration, one loop body; once the guard fails the
     * volume is 0, the source stopped and the handle null.
     */
    method FadeOutStep(dt: real)
      requires Valid() && dt >= 0.0
      modifies this`bgmFade, this`bgmVolume, this`bgmPlaying
      ensures Valid()
      ensures old(bgmFade) == None ==> unchanged(this)
      ensures old(bgmFade).Some? && old(bgmFade.value.timer < bgmFade.value.duration) ==>
                var f := old(bgmFade.value);
                && bgmFade == Some(f.(timer := f.timer + dt))
                && bgmVolume == Mathf.Lerp(f.startVolume, 0.0, (f.timer + dt) / f.duration)
                && bgmPlaying == old(bgmPlaying)
      ensures old(bgmFade).Some? && old(bgmFade.value.timer >= bgmFade.value.duration) ==>
                bgmVolume == 0.0 && !bgmPlaying && bgmFade == None
    {
      if bgmFade.None? {
        return;
      }
      var f := bgmFade.value;
      if f.timer < f.duration {
        var timer := f.timer + dt;
        bgmVolume := Mathf.Lerp(f.startVolume, 0.0, timer / f.duration);
        bgmFade := Some(f.(timer := timer));
      } else {
        bgmVolume := 0.0;
        bgmPlaying := false;
        bgmFade := None;
      }
    }

    /** Unloads every cached clip, in the cache's unspecified order, and empties the cache. */
    method ClearCache()
      requires Valid()
      modifies this`clipCache, this`unloads
      ensures Valid()
      ensures old(WithinCapacity()) ==> WithinCapacity()
      ensures clipCache == map[]
      ensures |unloads| == old(|unloads|) + old(|clipCache|)
      ensures unloads[..old(|unloads|)] == old(unloads)
      ensures forall k :: k in old(clipCache) ==> Unload(k, old(clipCache)[k]) in unloads[old(|unloads|)..]
      ensures forall u :: u in unloads[old(|unloads|)..] ==> u.key in old(clipCache) && u.clip == old(clipCache)[u.key]
    {
      var remaining := clipCache.Keys;
      ghost var n0 := |unloads|;
      while remaining != {}
        invariant remaining <= clipCache.Keys
        invariant clipCache == old(clipCache)
        invariant n0 <= |unloads| && unloads[..n0] == old(unloads)
        invariant |unloads| - n0 + |remaining| == |clipCache.Keys|
        invariant forall k :: k in clipCache && k !in remaining ==> Unload(k, clipCache[k]) in unloads[n0..]
        invariant forall u :: u in unloads[n0..] ==> u.key in clipCache && u.key !in remaining && u.clip == clipCache[u.key]
        decreases remaining
      {
        var k :| k in remaining;
        ghost var before := unloads[n0..];
        unloads := unloads + [Unload(k, clipCache[k])];
        assert unloads[n0..] == before + [Unload(k, clipCache[k])];
        remaining := remaining - {k};
      }
      assert |clipCache.Keys| == |clipCache|;
      clipCache := map[];
    }

    /**
     * OnDestroy clears the cache; destroying the component also ends every
     * coroutine it started, so no load or fade is resumed afterwards.
     */
    method OnDestroy()
      requires Valid()
      modifies this`clipCache, this`unloads, this`pending, this`bgmFade
      ensures Valid() && WithinCapacity()
      ensures clipCache == map[] && pending == map[] && bgmFade == None
      ensures |unloads| == old(|unloads|) + old(|clipCache|)
      ensures unloads[..old(|unloads|)] == old(unloads)
      ensures forall k :: k in old(clipCache) ==> Unload(k, old(clipCache)[k]) in unloads[old(|unloads|)..]
      ensures forall u :: u in unloads[old(|unloads|)..] ==> u.key in old(clipCache) && u.clip == old(clipCache)[u.key]
    {
      ClearCache();
      pending := map[];
      bgmFade := None;
    }
  }

  /** A clip that is neither held nor the one stored stays unheld after the store. */
  lemma FreshAfterUpdate(m: map<string, ClipId>, k: string, v: ClipId, x: ClipId)
    requires x != v && x !in m.Values
    ensures x !in m[k := v].Values
  {
    var m' := m[k := v];
    forall j | j in m'
      ensures m'[j] != x
    {
      if j != k {
        assert m[j] in m.Values;
      }
    }
  }

  /** Two SFX misses begun on a cache with room: both suspend on their requests and nothing is evicted. */
  method BeginTwoMisses(sm: SoundManager, a: SoundSetting, b: SoundSetting) returns (ta: nat, tb: nat)
    requires sm.Valid() && |sm.clipCache| < MaxCacheCount
    requires a.key != b.key && a.key !in sm.clipCache && b.key !in sm.clipCache
    modifies sm
    ensures sm.Valid() && sm.clipCache == old(sm.clipCache) && sm.bgmClip == old(sm.bgmClip)
    ensures ta != tb && ta in sm.pending && tb in sm.pending
    ensures sm.pending[ta].setting == a && !sm.pending[ta].isBGM
    ensures sm.pending[tb].setting == b && !sm.pending[tb].isBGM
  {
    var oa := sm.LoadAndPlayBegin(a, false);
    ta := oa.value;
    var ob := sm.LoadAndPlayBegin(b, false);
    tb := ob.value;
  }

  /**
   * The bound needs loads not to overlap: two misses begun on a cache one
   * short of full both find room, and when both loads succeed the cache
   * holds one clip more than MaxCacheCount.
   */
  method OverlappingMissesOverfill(sm: SoundManager, a: SoundSetting, b: SoundSetting, clipA: ClipId, clipB: ClipId)
    requires sm.Valid() && |sm.clipCache| == MaxCacheCount - 1
    requires a.key != b.key && a.key !in sm.clipCache && b.key !in sm.clipCache
    requires clipA != clipB && clipA !in sm.clipCache.Values && clipB !in sm.clipCache.Values
    requires sm.bgmClip != Some(clipA) && sm.bgmClip != Some(clipB)
    modifies sm
    ensures |sm.clipCache| == MaxCacheCount + 1
  {
    ghost var cache0 := sm.clipCache;
    var ta, tb := BeginTwoMisses(sm, a, b);
    sm.LoadAndPlayComplete(ta, Loaded(clipA));
    assert sm.clipCache == cache0[a.key := clipA];
    FreshAfterUpdate(cache0, a.key, clipA, clipB);
    sm.LoadAndPlayComplete(tb, Loaded(clipB));
    assert |sm.clipCache| == MaxCacheCount + 1 by {
      assert sm.clipCache.Keys == cache0.Keys + {a.key, b.key};
    }
  }
}
