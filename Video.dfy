/**
 * The video manager: the list of render textures it created, the wiring of
 * a fresh texture to a player and a raw image, the prepare-then-play
 * handshake, and the platform rule for playable paths. Players, images,
 * textures and audio sources are objects whose fields stand for the engine
 * state the manager touches.
 */
module Video {
  import opened Wrappers
  import Paths
  import Mathf

  /** The prepare wait gives up after this many seconds. */
  const TimeoutSeconds: real := 30.0

  /** The smallest render-texture side the engine accepts. */
  const MinTextureSide: int := 2

  /** Depth-buffer bits of every texture the manager creates. */
  const TextureDepth: int := 24

  datatype Vector2Int = Vector2Int(x: int, y: int)

  datatype VideoRenderMode = CameraFarPlane | CameraNearPlane | RenderTexture | MaterialOverride | APIOnly

  datatype VideoSource = VideoClip | Url

  datatype VideoAudioOutputMode = NoAudio | AudioSource | Direct | APIOnlyAudio

  class Texture {
    const width: int
    const height: int
    const depth: int
    var created: bool
    var released: bool
    /** Object.Destroy was called; the engine's null test is then true. */
    var destroyed: bool

    constructor (width: int, height: int, depth: int)
      ensures this.width == width && this.height == height && this.depth == depth
      ensures !created && !released && !destroyed
    {
      this.width := width;
      this.height := height;
      this.depth := depth;
      created, released, destroyed := false, false, false;
    }
  }

  class RawImage {
    var texture: Texture?

    constructor ()
      ensures texture == null
    {
      texture := null;
    }
  }

  class AudioOutput {
    var volume: real

    constructor ()
      ensures volume == 1.0
    {
      volume := 1.0;
    }
  }

  class VideoPlayer {
    var targetTexture: Texture?
    var renderMode: VideoRenderMode
    var source: VideoSource
    var url: string
    var playOnAwake: bool
    var audioOutputMode: VideoAudioOutputMode
    var audioTrackEnabled: bool
    var targetAudioSource: AudioOutput?
    /** The handlers subscribed to errorReceived. */
    var errorHandlers: set<object>
    var prepareRequested: bool
    /** Set by the engine once Prepare has finished. */
    var isPrepared: bool
    var isPlaying: bool

    constructor ()
      ensures targetTexture == null && renderMode == CameraFarPlane && source == VideoClip && url == ""
      ensures playOnAwake && audioOutputMode == Direct && !audioTrackEnabled && targetAudioSource == null
      ensures errorHandlers == {} && !prepareRequested && !isPrepared && !isPlaying
    {
      targetTexture := null;
      renderMode := CameraFarPlane;
      source := VideoClip;
      url := "";
      playOnAwake := true;
      audioOutputMode := Direct;
      audioTrackEnabled := false;
      targetAudioSource := null;
      errorHandlers := {};
      prepareRequested := false;
      isPrepared := false;
      isPlaying := false;
    }
  }

  // ---------------------------------------------------------------------
  // Pure rules

  /** The texture size for a requested display size: each side at least MinTextureSide. */
  function TextureSize(size: Vector2Int): (r: Vector2Int)
    ensures r.x >= MinTextureSide && r.y >= MinTextureSide
    ensures size.x >= MinTextureSide ==> r.x == size.x
    ensures size.y >= MinTextureSide ==> r.y == size.y
    ensures size.x < MinTextureSide ==> r.x == MinTextureSide
    ensures size.y < MinTextureSide ==> r.y == MinTextureSide
  {
    Vector2Int(Mathf.Max(MinTextureSide, size.x), Mathf.Max(MinTextureSide, size.y))
  }

  /** List.Remove: the first occurrence of x is taken out; a list without x is unchanged. */
  function RemoveFirst<T(==)>(s: seq<T>, x: T): (r: seq<T>)
    ensures x !in s ==> r == s
    ensures x in s ==> |r| == |s| - 1
  {
    if s == [] then []
    else if s[0] == x then s[1..]
    else
      assert s == [s[0]] + s[1..];
      [s[0]] + RemoveFirst(s[1..], x)
  }

  /** What List.Remove keeps: everything before the first x, and everything after it. */
  lemma {:induction false} RemoveFirstAt<T>(s: seq<T>, x: T, i: nat)
    requires i < |s| && s[i] == x && x !in s[..i]
    ensures RemoveFirst(s, x) == s[..i] + s[i + 1..]
  {
    if i > 0 {
      assert s[0] != x by { assert s[0] == s[..i][0]; }
      assert s[1..][..i - 1] == s[1..i];
      assert x !in s[1..][..i - 1] by {
        forall y | y in s[1..i] ensures y in s[..i] { }
      }
      RemoveFirstAt(s[1..], x, i - 1);
      assert s[..i] == [s[0]] + s[1..][..i - 1];
      assert s[i + 1..] == s[1..][i..];
    }
  }

  /** List.Remove takes out one x when there is one, and nothing else. */
  lemma {:induction false} RemoveFirstMultiset<T>(s: seq<T>, x: T)
    ensures multiset(RemoveFirst(s, x)) == multiset(s) - multiset{x}
  {
    if s != [] {
      assert s == [s[0]] + s[1..];
      if s[0] != x {
        RemoveFirstMultiset(s[1..], x);
      }
    }
  }

  /** The engine's outcome of a prepare wait that has ended: an error wins, then a timeout, else play. */
  function PrepareOutcome(hasError: bool, errorMessage: string, isPrepared: bool): (p: PreparePhase)
    ensures p != Waiting && p != Rejected
    ensures p.Failed? <==> hasError
    ensures p.Failed? ==> p.message == errorMessage
    ensures p == TimedOut <==> !hasError && !isPrepared
    ensures p == Playing <==> !hasError && isPrepared
  {
    if hasError then Failed(errorMessage)
    else if !isPrepared then TimedOut
    else Playing
  }

  /**
   * The URL VideoManager plays for a path under the streaming assets. On
   * Windows a .webm path (ignoring case) is replaced by its .mp4 sibling when
   * that file exists. Path.Combine, File.Exists and Uri.AbsoluteUri are left
   * uninterpreted.
   */
  function ResolvePlayableUrl(
    relativePath: string, streamingAssetsPath: string, onWindows: bool,
    combine: (string, string) -> string, fileExists: string -> bool, absoluteUri: string -> string): string
  {
    var fullPath := Paths.ReplaceBackslashes(combine(streamingAssetsPath, relativePath));
    if onWindows && Paths.EndsWithIgnoreCase(relativePath, ".webm")
       && fileExists(Paths.ChangeExtension(fullPath, ".mp4"))
    then absoluteUri(Paths.ChangeExtension(fullPath, ".mp4"))
    else absoluteUri(fullPath)
  }

  /**
   * For a full path "stem.name" whose extension is webm in any case, from a
   * relative path ending in .webm in any case: on Windows with "stem.mp4"
   * present the .mp4 is played, otherwise the full path is.
   */
  lemma ResolveWebm(
    relativePath: string, streamingAssetsPath: string, onWindows: bool,
    combine: (string, string) -> string, fileExists: string -> bool, absoluteUri: string -> string,
    stem: string, name: string)
    requires Paths.ReplaceBackslashes(combine(streamingAssetsPath, relativePath)) == stem + "." + name
    requires Paths.Lower(name) == "webm"
    requires Paths.EndsWithIgnoreCase(relativePath, ".webm")
    ensures onWindows && fileExists(stem + ".mp4") ==>
              ResolvePlayableUrl(relativePath, streamingAssetsPath, onWindows, combine, fileExists, absoluteUri)
              == absoluteUri(stem + ".mp4")
    ensures !(onWindows && fileExists(stem + ".mp4")) ==>
              ResolvePlayableUrl(relativePath, streamingAssetsPath, onWindows, combine, fileExists, absoluteUri)
              == absoluteUri(stem + "." + name)
  {
    forall k | 0 <= k < |name|
      ensures Paths.IsExtensionChar(name[k])
    {
      assert Paths.LowerChar(name[k]) == Paths.Lower(name)[k];
    }
    Paths.ChangeExtensionOfName(stem, name, ".mp4");
  }

  /** Any path that does not end in .webm is played from its full path. */
  lemma ResolveOther(
    relativePath: string, streamingAssetsPath: string, onWindows: bool,
    combine: (string, string) -> string, fileExists: string -> bool, absoluteUri: string -> string)
    requires !Paths.EndsWithIgnoreCase(relativePath, ".webm")
    ensures ResolvePlayableUrl(relativePath, streamingAssetsPath, onWindows, combine, fileExists, absoluteUri)
            == absoluteUri(Paths.ReplaceBackslashes(combine(streamingAssetsPath, relativePath)))
  {
  }

  // ---------------------------------------------------------------------
  // The manager

  class VideoManager {
    /** The textures this manager created and has not handed back. */
    var activeRenderTextures: seq<Texture>

    constructor ()
      ensures activeRenderTextures == []
    {
      activeRenderTextures := [];
    }

    /**
     * A null player is refused with nothing changed. Otherwise a texture the
     * player already targets, unless it was destroyed already (the engine
     * then reports it as null), is taken off the list, released and destroyed;
     * then a fresh texture of the clamped size is created, listed, and made
     * the player's target and, for a non-null image, the image's texture.
     */
    method WireRawImageAndRenderTexture(vp: VideoPlayer?, raw: RawImage?, size: Vector2Int) returns (rt: Texture?)
      modifies this, vp, raw
      modifies if vp != null && vp.targetTexture != null then {vp.targetTexture} else {}
      ensures vp == null ==> rt == null && unchanged(this) && (raw != null ==> unchanged(raw))
      ensures vp != null ==> rt != null && fresh(rt)
      ensures vp != null ==> rt.width == TextureSize(size).x && rt.height == TextureSize(size).y
      ensures vp != null ==> rt.depth == TextureDepth && rt.created && !rt.released && !rt.destroyed
      ensures vp != null ==> vp.targetTexture == rt && vp.renderMode == RenderTexture
      ensures vp != null ==> if raw != null then raw.texture == rt else true
      ensures vp != null && old(vp.targetTexture) != null && !old(vp.targetTexture.destroyed) ==>
                && old(vp.targetTexture).released && old(vp.targetTexture).destroyed
                && var previous: Texture := old(vp.targetTexture);
                   activeRenderTextures == RemoveFirst(old(activeRenderTextures), previous) + [rt]
      ensures vp != null && (old(vp.targetTexture) == null || old(vp.targetTexture.destroyed)) ==>
                activeRenderTextures == old(activeRenderTextures) + [rt]
      ensures vp != null ==> unchanged(vp`source, vp`url, vp`playOnAwake, vp`audioOutputMode, vp`audioTrackEnabled, vp`targetAudioSource)
      ensures vp != null ==> unchanged(vp`isPrepared, vp`isPlaying, vp`errorHandlers, vp`prepareRequested)
    {
      if vp == null {
        return null;
      }
      if vp.targetTexture != null && !vp.targetTexture.destroyed {
        var previous: Texture := vp.targetTexture;
        activeRenderTextures := RemoveFirst(activeRenderTextures, previous);
        previous.released := true;
        previous.destroyed := true;
      }
      var side := TextureSize(size);
      rt := new Texture(side.x, side.y, TextureDepth);
      rt.created := true;
      activeRenderTextures := activeRenderTextures + [rt];
      vp.renderMode := RenderTexture;
      vp.targetTexture := rt;
      if raw != null {
        raw.texture := rt;
      }
    }

    /** Releases and destroys every listed texture the engine does not already treat as null; empties the list. */
    method OnDestroy()
      modifies this, set t | t in activeRenderTextures
      ensures activeRenderTextures == []
      ensures forall t :: t in old(activeRenderTextures) ==> t.destroyed
      ensures forall t :: t in old(activeRenderTextures) && !old(t.destroyed) ==> t.released
      ensures forall t :: t in old(activeRenderTextures) && old(t.destroyed) ==> t.released == old(t.released)
    {
      var list := activeRenderTextures;
      var i := 0;
      while i < |list|
        invariant 0 <= i <= |list|
        invariant activeRenderTextures == list
        invariant forall t :: t in list[..i] ==> t.destroyed
        invariant forall t :: t in list[..i] && !old(t.destroyed) ==> t.released
        invariant forall t :: t in list && t !in list[..i] ==> t.released == old(t.released) && t.destroyed == old(t.destroyed)
        invariant forall t :: t in list && old(t.destroyed) ==> t.released == old(t.released)
      {
        var t := list[i];
        assert list[..i + 1] == list[..i] + [t];
        if !t.destroyed {
          t.released := true;
          t.destroyed := true;
        }
        i := i + 1;
      }
      assert list[..i] == list;
      activeRenderTextures := [];
    }
  }

  // ---------------------------------------------------------------------
  // The prepare handshake

  datatype PreparePhase = Waiting | Playing | Failed(message: string) | TimedOut | Rejected

  /** One run of PrepareAndPlayRoutine: its locals and where it stands. */
  class PrepareSession {
    const vp: VideoPlayer?
    const url: Option<string>
    var hasError: bool
    var errorMessage: string
    var elapsed: real
    var phase: PreparePhase

    ghost predicate Valid()
      reads this, vp
    {
      && elapsed >= 0.0
      && (phase == Waiting ==> vp != null && this in vp.errorHandlers)
      && (phase == Rejected ==> vp == null || url.None? || url == Some(""))
    }

    /**
     * The routine up to its wait loop. A null player or a null or empty URL
     * is rejected before the player is touched. Otherwise the player gets
     * the URL, the audio source (when there is one) gets the clamped volume,
     * the error handler is subscribed and Prepare is called.
     */
    constructor Begin(vp: VideoPlayer?, url: Option<string>, audio: AudioOutput?, volume: real)
      modifies vp, audio
      ensures Valid()
      ensures this.vp == vp && this.url == url && elapsed == 0.0 && !hasError
      ensures vp == null || url.None? || url == Some("") ==>
                phase == Rejected && (vp != null ==> unchanged(vp)) && (audio != null ==> unchanged(audio))
      ensures vp != null && url.Some? && url != Some("") ==>
                && phase == Waiting
                && vp.source == Url && vp.url == url.value && !vp.playOnAwake
                && vp.errorHandlers == old(vp.errorHandlers) + {this}
                && vp.prepareRequested
                && vp.isPrepared == old(vp.isPrepared) && vp.isPlaying == old(vp.isPlaying)
                && vp.targetTexture == old(vp.targetTexture) && vp.renderMode == old(vp.renderMode)
      ensures vp != null && url.Some? && url != Some("") && audio != null ==>
                && vp.audioOutputMode == AudioSource && vp.audioTrackEnabled && vp.targetAudioSource == audio
                && audio.volume == Mathf.Clamp01(volume)
      ensures vp != null && url.Some? && url != Some("") && audio == null ==>
                vp.audioOutputMode == old(vp.audioOutputMode) && vp.audioTrackEnabled == old(vp.audioTrackEnabled)
                && vp.targetAudioSource == old(vp.targetAudioSource)
    {
      this.vp := vp;
      this.url := url;
      hasError := false;
      errorMessage := "";
      elapsed := 0.0;
      var accepted := vp != null && url.Some? && url != Some("");
      phase := if accepted then Waiting else Rejected;
      new;
      if !accepted {
        return;
      }
      vp.source := Url;
      vp.url := url.value;
      vp.playOnAwake := false;
      if audio != null {
        vp.audioOutputMode := AudioSource;
        vp.audioTrackEnabled := true;
        vp.targetAudioSource := audio;
        audio.volume := Mathf.Clamp01(volume);
      }
      vp.errorHandlers := vp.errorHandlers + {this};
      vp.prepareRequested := true;
    }

    /** The subscribed error handler: records the error while the session still listens. */
    method ErrorReceived(message: string)
      requires Valid()
      modifies this
      ensures Valid()
      ensures old(phase) == Waiting ==> hasError && errorMessage == message && phase == Waiting && elapsed == old(elapsed)
      ensures old(phase) != Waiting ==> unchanged(this)
    {
      if phase == Waiting && this in vp.errorHandlers {
        hasError := true;
        errorMessage := message;
      }
    }

    /**
     * One evaluation of the wait loop's guard: while the player is not
     * prepared, time is short of the timeout and no error arrived, dt is
     * added and the routine waits; otherwise the handler is unsubscribed and
     * exactly one outcome is taken. A finished or rejected session ignores
     * further frames.
     */
    method Resume(dt: real)
      requires Valid() && dt >= 0.0
      modifies this, vp
      ensures Valid()
      ensures old(phase) != Waiting ==> unchanged(this) && (vp != null ==> unchanged(vp))
      ensures old(phase) == Waiting && !old(vp.isPrepared) && old(elapsed) < TimeoutSeconds && !old(hasError) ==>
                phase == Waiting && elapsed == old(elapsed) + dt && unchanged(vp)
                && hasError == old(hasError) && errorMessage == old(errorMessage)
      ensures old(phase) == Waiting && (old(vp.isPrepared) || old(elapsed) >= TimeoutSeconds || old(hasError)) ==>
                && phase == PrepareOutcome(hasError, errorMessage, vp.isPrepared)
                && vp.errorHandlers == old(vp.errorHandlers) - {this}
                && vp.isPlaying == (old(vp.isPlaying) || phase == Playing)
                && vp.isPrepared == old(vp.isPrepared) && vp.url == old(vp.url)
                && vp.targetTexture == old(vp.targetTexture)
                && unchanged(vp`renderMode, vp`source, vp`playOnAwake, vp`prepareRequested)
                && unchanged(vp`audioOutputMode, vp`audioTrackEnabled, vp`targetAudioSource)
                && elapsed == old(elapsed) && hasError == old(hasError) && errorMessage == old(errorMessage)
    {
      if phase != Waiting {
        return;
      }
      if !vp.isPrepared && elapsed < TimeoutSeconds && !hasError {
        elapsed := elapsed + dt;
        return;
      }
      vp.errorHandlers := vp.errorHandlers - {this};
      phase := PrepareOutcome(hasError, errorMessage, vp.isPrepared);
      if phase == Playing {
        vp.isPlaying := true;
      }
    }
  }
}
