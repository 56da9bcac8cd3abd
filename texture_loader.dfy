/**
 * The texture loader component: five texture requests, each applied to one
 * input of the object's material once its download completes, two of them
 * after a per-pixel channel remapping.
 *
 * A texture is a pixel grid read and written as (x, y) with x below its width
 * (`Length0`) and y below its height (`Length1`). The network is the
 * parameter `fetch` of `Start`: it gives, for a URL, the completed download.
 */
module TextureLoader {
  import opened Pixels

  type Texture = array2<Color>

  ghost predicate SameSize(t: Texture, src: Texture) {
    t.Length0 == src.Length0 && t.Length1 == src.Length1
  }

  /** `t` is `src` re-encoded as a normal map, pixel by pixel. */
  ghost predicate IsNormalMapOf(t: Texture, src: Texture)
    reads t, src
  {
    SameSize(t, src) &&
    forall x, y :: 0 <= x < t.Length0 && 0 <= y < t.Length1 ==> t[x, y] == NormalEncode(src[x, y])
  }

  /** `t` is the metallic/gloss map converted from the metallic-roughness map `src`, pixel by pixel. */
  ghost predicate IsMetallicGlossOf(t: Texture, src: Texture)
    reads t, src
  {
    SameSize(t, src) &&
    forall x, y :: 0 <= x < t.Length0 && 0 <= y < t.Length1 ==> t[x, y] == MetallicGloss(src[x, y])
  }

  /**
   * The normal-map conversion: a working copy of `normalMap` is rewritten in
   * place, column by column, each pixel read and written back exactly once.
   * `normalMap` itself is only read.
   */
  method RemapNormalMap(normalMap: Texture) returns (tex: Texture)
    ensures IsNormalMapOf(tex, normalMap)
  {
    var width, height := normalMap.Length0, normalMap.Length1;
    // the working texture starts as a copy of the source
    tex := new Color[width, height]((x: nat, y: nat) requires x < width && y < height reads normalMap => normalMap[x, y]);
    var i := 0;
    while i < width
      invariant 0 <= i <= width
      invariant forall x, y :: 0 <= x < i && 0 <= y < height ==> tex[x, y] == NormalEncode(normalMap[x, y])
      invariant forall x, y :: i <= x < width && 0 <= y < height ==> tex[x, y] == normalMap[x, y]
    {
      var j := 0;
      while j < height
        invariant 0 <= j <= height
        invariant forall x, y :: 0 <= x < i && 0 <= y < height ==> tex[x, y] == NormalEncode(normalMap[x, y])
        invariant forall y :: 0 <= y < j ==> tex[i, y] == NormalEncode(normalMap[i, y])
        invariant forall y :: j <= y < height ==> tex[i, y] == normalMap[i, y]
        invariant forall x, y :: i < x < width && 0 <= y < height ==> tex[x, y] == normalMap[x, y]
      {
        var pixel := tex[i, j];
        pixel := pixel.(a := pixel.r);
        pixel := pixel.(r := Neutral);
        pixel := pixel.(g := Neutral);
        tex[i, j] := pixel;
        j := j + 1;
      }
      i := i + 1;
    }
  }

  /**
   * The metallic-roughness conversion: a new texture of the same size is
   * filled, column by column, from the pixels of `original`, which is only read.
   */
  method ConvertMetallicRoughness(original: Texture) returns (converted: Texture)
    ensures IsMetallicGlossOf(converted, original)
  {
    var width, height := original.Length0, original.Length1;
    converted := new Color[width, height];
    var x := 0;
    while x < width
      invariant 0 <= x <= width
      invariant forall i, j :: 0 <= i < x && 0 <= j < height ==> converted[i, j] == MetallicGloss(original[i, j])
    {
      var y := 0;
      while y < height
        invariant 0 <= y <= height
        invariant forall i, j :: 0 <= i < x && 0 <= j < height ==> converted[i, j] == MetallicGloss(original[i, j])
        invariant forall j :: 0 <= j < y ==> converted[x, j] == MetallicGloss(original[x, j])
      {
        var originalColor := original[x, y];
        var convertedColor := Color(originalColor.b, 0.0, 0.0, 1.0 - originalColor.g);
        converted[x, y] := convertedColor;
        y := y + 1;
      }
      x := x + 1;
    }
  }

  /**
   * What a normal map holds, channel by channel: alpha carries the source's
   * red, red and green the neutral value, blue the source's blue; and if the
   * source is normalized, so is the result.
   */
  lemma NormalMapChannels(t: Texture, src: Texture, x: int, y: int)
    requires IsNormalMapOf(t, src)
    requires 0 <= x < t.Length0 && 0 <= y < t.Length1
    ensures SameSize(t, src)
    ensures t[x, y].a == src[x, y].r && t[x, y].b == src[x, y].b
    ensures t[x, y].r == 0.5 && t[x, y].g == 0.5
    ensures IsNormalized(src[x, y]) ==> IsNormalized(t[x, y])
  {
  }

  /**
   * What a metallic/gloss map holds, channel by channel: metallic is the
   * source's metalness (blue), smoothness is one minus its roughness (green),
   * green and blue are zero; and normalized input gives normalized output.
   */
  lemma MetallicGlossChannels(t: Texture, src: Texture, x: int, y: int)
    requires IsMetallicGlossOf(t, src)
    requires 0 <= x < t.Length0 && 0 <= y < t.Length1
    ensures SameSize(t, src)
    ensures t[x, y].r == src[x, y].b && t[x, y].a == 1.0 - src[x, y].g
    ensures t[x, y].g == 0.0 && t[x, y].b == 0.0
    ensures IsNormalized(src[x, y]) ==> IsNormalized(t[x, y])
  {
  }

  // ---------------------------------------------------------------------------
  // The material the loader writes to

  /** The texture properties of the material's shader that the loader sets. */
  datatype TextureSlot =
    | MainTex            // "_MainTex", the material's main texture
    | EmissionMap        // "_EmissionMap"
    | OcclusionMap       // "_OcclusionMap"
    | MetallicGlossMap   // "_MetallicGlossMap"
    | BumpMap            // "_BumpMap"

  /** The float properties the loader sets. */
  datatype FloatProperty =
    | BumpScale          // "_BumpScale"
    | MetallicFactor     // "_Metallic"
    | GlossinessFactor   // "_Glossiness"

  /** A material's global-illumination flags. */
  datatype GIFlags = NoFlags | RealtimeEmissive | BakedEmissive | EmissiveIsBlack | AnyEmissive

  /** The material settings, other than textures, that the loader writes. */
  datatype Settings = Settings(
    floats: map<FloatProperty, real>,
    emissionColor: Color,     // "_EmissionColor"
    emissionEnabled: bool,    // shader keyword "_EMISSION"
    giFlags: GIFlags)

  /** The part of a material's state that the loader reads or writes. */
  datatype MaterialState = MaterialState(textures: map<TextureSlot, Texture>, settings: Settings)

  /** The emission colour the emissive request sets: opaque white. */
  const EmissionWhite := Color(1.0, 1.0, 1.0, 1.0)

  /** The renderer's material, shared with the renderer and updated in place. */
  class Material {
    var state: MaterialState

    constructor (initial: MaterialState)
      ensures state == initial
    {
      state := initial;
    }

    method SetTexture(slot: TextureSlot, t: Texture)
      modifies this
      ensures state == old(state).(textures := old(state).textures[slot := t])
    {
      state := state.(textures := state.textures[slot := t]);
    }

    method SetFloat(p: FloatProperty, v: real)
      modifies this
      ensures state == old(state).(settings := old(state).settings.(floats := old(state).settings.floats[p := v]))
    {
      state := state.(settings := state.settings.(floats := state.settings.floats[p := v]));
    }

    method SetEmissionColor(c: Color)
      modifies this
      ensures state == old(state).(settings := old(state).settings.(emissionColor := c))
    {
      state := state.(settings := state.settings.(emissionColor := c));
    }

    method EnableEmission()
      modifies this
      ensures state == old(state).(settings := old(state).settings.(emissionEnabled := true))
    {
      state := state.(settings := state.settings.(emissionEnabled := true));
    }

    method SetGIFlags(f: GIFlags)
      modifies this
      ensures state == old(state).(settings := old(state).settings.(giFlags := f))
    {
      state := state.(settings := state.settings.(giFlags := f));
    }
  }

  // ---------------------------------------------------------------------------
  // The five requests and their effect on the material

  /** The five textures the loader requests, one per material input. */
  datatype Request = Base | Emissive | Occlusion | MetallicRoughness | Normal

  /** The requests served through the generic download-then-callback routine. */
  type Callback = r: Request | r != MetallicRoughness witness Base

  function Slot(r: Request): TextureSlot {
    match r
    case Base => MainTex
    case Emissive => EmissionMap
    case Occlusion => OcclusionMap
    case MetallicRoughness => MetallicGlossMap
    case Normal => BumpMap
  }

  /** The settings request `r` writes along with its texture. */
  /** The float properties request `r` writes, each to 1. */
  function FloatsOf(r: Request): set<FloatProperty> {
    match r
    case MetallicRoughness => {MetallicFactor, GlossinessFactor}
    case Normal => {BumpScale}
    case _ => {}
  }

  /**
   * The settings request `r` writes: the emissive request switches emission
   * on, in white and with real-time global illumination; the float
   * properties of `FloatsOf(r)` are set to 1; nothing else changes.
   */
  function Configure(s: Settings, r: Request): (s': Settings)
    ensures forall p :: p in FloatsOf(r) ==> p in s'.floats && s'.floats[p] == 1.0
    ensures forall p :: p !in FloatsOf(r) ==> SameEntry(s.floats, s'.floats, p)
    ensures r == Emissive ==>
      s'.emissionEnabled && s'.giFlags == RealtimeEmissive && s'.emissionColor == EmissionWhite
    ensures r != Emissive ==>
      s'.emissionEnabled == s.emissionEnabled && s'.giFlags == s.giFlags && s'.emissionColor == s.emissionColor
  {
    match r
    case Emissive =>
      s.(emissionEnabled := true, giFlags := RealtimeEmissive, emissionColor := EmissionWhite)
    case MetallicRoughness =>
      s.(floats := s.floats[MetallicFactor := 1.0][GlossinessFactor := 1.0])
    case Normal =>
      s.(floats := s.floats[BumpScale := 1.0])
    case _ =>
      s
  }

  /**
   * The material after request `r` has installed texture `t`: the texture goes
   * to the request's slot, and the settings that go with it are written.
   */
  function Installed(s: MaterialState, r: Request, t: Texture): (s': MaterialState)
    ensures Slot(r) in s'.textures && s'.textures[Slot(r)] == t
  {
    MaterialState(s.textures[Slot(r) := t], Configure(s.settings, r))
  }

  /** `k` is absent from both maps or present in both with the same value. */
  ghost predicate SameEntry<K, V>(m: map<K, V>, m': map<K, V>, k: K) {
    (k in m <==> k in m') && (k in m ==> m[k] == m'[k])
  }

  /** Every setting request `r` would write is the same in `before` and `after`. */
  ghost predicate SettingsUntouched(before: Settings, after: Settings, r: Request) {
    match r
    case Emissive =>
      before.emissionEnabled == after.emissionEnabled && before.giFlags == after.giFlags &&
      before.emissionColor == after.emissionColor
    case MetallicRoughness =>
      SameEntry(before.floats, after.floats, MetallicFactor) && SameEntry(before.floats, after.floats, GlossinessFactor)
    case Normal =>
      SameEntry(before.floats, after.floats, BumpScale)
    case _ => true
  }

  /** Every part of the material that request `r` would write is the same in `before` and `after`. */
  ghost predicate Untouched(before: MaterialState, after: MaterialState, r: Request) {
    SameEntry(before.textures, after.textures, Slot(r)) && SettingsUntouched(before.settings, after.settings, r)
  }

  /** `s` holds everything request `r` writes: some texture in its slot and its settings. */
  ghost predicate Holds(s: MaterialState, r: Request) {
    Slot(r) in s.textures && Configure(s.settings, r) == s.settings
  }

  /** The texture in request `r`'s slot, if any. */
  function Footprint(s: MaterialState, r: Request): set<Texture> {
    if Slot(r) in s.textures then {s.textures[Slot(r)]} else {}
  }

  /** The texture request `r` installs is the one derived from the downloaded `src`. */
  ghost predicate Derived(r: Request, t: Texture, src: Texture)
    reads t, src
  {
    match r
    case Normal => IsNormalMapOf(t, src)
    case MetallicRoughness => IsMetallicGlossOf(t, src)
    case _ => t == src
  }

  /**
   * The effect of one completed request on the material, apart from which
   * texture it installs: after a failed download the material is as it was,
   * otherwise one texture has been installed for the request.
   */
  ghost predicate Step(before: MaterialState, after: MaterialState, r: Request, failed: bool) {
    if failed then after == before
    else Slot(r) in after.textures && after == Installed(before, r, after.textures[Slot(r)])
  }

  /** What request `r` leaves behind, seen from the material it started with. */
  ghost predicate Outcome(before: MaterialState, after: MaterialState, r: Request, failed: bool) {
    if failed then Untouched(before, after, r) else Holds(after, r)
  }

  /** Unless `d` failed, request `r`'s slot holds the texture derived from `d`'s content. */
  ghost predicate Supplied(s: MaterialState, r: Request, d: Download)
    reads Footprint(s, r), d.content
  {
    !Failed(d) ==> Slot(r) in s.textures && Derived(r, s.textures[Slot(r)], d.content)
  }

  /**
   * What request `r` leaves behind, seen from the material it started with:
   * after a failed download `r`'s part of the material is as it was; otherwise
   * it holds everything `r` writes, with the texture derived from the download.
   */
  ghost predicate Settled(before: MaterialState, after: MaterialState, r: Request, d: Download)
    reads Footprint(after, r), d.content
  {
    Outcome(before, after, r, Failed(d)) && Supplied(after, r, d)
  }

  /** Different requests write different slots. */
  lemma SlotInjective(r: Request, q: Request)
    ensures Slot(r) == Slot(q) ==> r == q
  {
  }

  /** Writing one request's settings leaves the settings of every other request alone. */
  lemma ConfigureIndependent(s: Settings, r: Request, q: Request)
    requires r != q
    ensures SettingsUntouched(s, Configure(s, q), r)
  {
  }

  /** Two requests' settings may be written in either order. */
  lemma ConfigureCommute(s: Settings, r: Request, q: Request)
    ensures Configure(Configure(s, r), q) == Configure(Configure(s, q), r)
  {
    if {r, q} == {MetallicRoughness, Normal} {
      assert Configure(Configure(s, r), q).floats == Configure(Configure(s, q), r).floats;
    }
  }

  /** Installing one request leaves everything another request writes alone. */
  lemma InstalledIndependent(s: MaterialState, r: Request, q: Request, t: Texture)
    requires r != q
    ensures Untouched(s, Installed(s, q, t), r)
  {
    SlotInjective(r, q);
    ConfigureIndependent(s.settings, r, q);
  }

  /** Two different requests may complete in either order with the same result. */
  lemma InstalledCommute(s: MaterialState, r: Request, q: Request, t: Texture, u: Texture)
    requires r != q
    ensures Installed(Installed(s, r, t), q, u) == Installed(Installed(s, q, u), r, t)
  {
    SlotInjective(r, q);
    ConfigureCommute(s.settings, r, q);
    assert s.textures[Slot(r) := t][Slot(q) := u] == s.textures[Slot(q) := u][Slot(r) := t];
  }

  /** Installing a request's texture a second time changes nothing more. */
  lemma InstalledIdempotent(s: MaterialState, r: Request, t: Texture)
    ensures Holds(Installed(s, r, t), r)
    ensures Installed(Installed(s, r, t), r, t) == Installed(s, r, t)
  {
    assert Configure(Configure(s.settings, r), r) == Configure(s.settings, r) by {
      if r == MetallicRoughness || r == Normal {
        assert Configure(Configure(s.settings, r), r).floats == Configure(s.settings, r).floats;
      }
    }
  }

  /** Completing request `r` after a stretch in which its part was untouched gives its outcome. */
  lemma StepOutcome(before: MaterialState, mid: MaterialState, after: MaterialState, r: Request, failed: bool)
    requires Untouched(before, mid, r)
    requires Step(mid, after, r, failed)
    ensures Outcome(before, after, r, failed)
  {
    if !failed {
      InstalledIdempotent(mid, r, after.textures[Slot(r)]);
    }
  }

  /** Another request's step keeps request `r`'s part untouched. */
  lemma UntouchedAcross(before: MaterialState, mid: MaterialState, after: MaterialState,
                        r: Request, q: Request, failed: bool)
    requires r != q
    requires Untouched(before, mid, r)
    requires Step(mid, after, q, failed)
    ensures Untouched(before, after, r)
  {
    if !failed {
      InstalledIndependent(mid, r, q, after.textures[Slot(q)]);
    }
  }

  /** Another request's step keeps request `r`'s outcome, and the texture in its slot. */
  lemma OutcomeAcross(before: MaterialState, mid: MaterialState, after: MaterialState,
                      r: Request, q: Request, failed: bool, failedQ: bool)
    requires r != q
    requires Outcome(before, mid, r, failed)
    requires Step(mid, after, q, failedQ)
    ensures Outcome(before, after, r, failed)
    ensures SameEntry(mid.textures, after.textures, Slot(r))
  {
    if failed {
      UntouchedAcross(before, mid, after, r, q, failedQ);
    } else if !failedQ {
      var u := after.textures[Slot(q)];
      InstalledIndependent(mid, r, q, u);
      ConfigureCommute(mid.settings, r, q);
    }
  }

  /** `states` are the material before and after each of the completed `requests`, in order. */
  ghost predicate Completes(states: seq<MaterialState>, requests: seq<Request>, failed: seq<bool>) {
    |states| == |requests| + 1 && |failed| == |requests| &&
    forall i :: 0 <= i < |requests| ==> Step(states[i], states[i + 1], requests[i], failed[i])
  }

  ghost predicate Distinct(requests: seq<Request>) {
    forall i, j :: 0 <= i < j < |requests| ==> requests[i] != requests[j]
  }

  /** A request that has not completed yet finds its part of the material as it was at the start. */
  lemma {:induction false} UntouchedThrough(states: seq<MaterialState>, requests: seq<Request>, failed: seq<bool>, r: Request)
    requires Completes(states, requests, failed)
    requires r !in requests
    ensures Untouched(states[0], states[|requests|], r)
    decreases |requests|
  {
    var n := |requests|;
    if n > 0 {
      assert requests == requests[..n - 1] + [requests[n - 1]];
      UntouchedThrough(states[..n], requests[..n - 1], failed[..n - 1], r);
      UntouchedAcross(states[0], states[n - 1], states[n], r, requests[n - 1], failed[n - 1]);
    }
  }

  /**
   * Distinct requests completing one after another, in whatever order: each
   * one's outcome depends on its own download only, and the texture it
   * installed is still in its slot at the end.
   */
  lemma {:induction false} CompletedOutcome(states: seq<MaterialState>, requests: seq<Request>, failed: seq<bool>, k: int)
    requires Completes(states, requests, failed) && Distinct(requests)
    requires 0 <= k < |requests|
    ensures Outcome(states[0], states[|requests|], requests[k], failed[k])
    ensures SameEntry(states[k + 1].textures, states[|requests|].textures, Slot(requests[k]))
    decreases |requests|
  {
    var n := |requests|;
    if k == n - 1 {
      assert requests[k] !in requests[..n - 1];
      UntouchedThrough(states[..n], requests[..n - 1], failed[..n - 1], requests[k]);
      StepOutcome(states[0], states[n - 1], states[n], requests[k], failed[k]);
    } else {
      CompletedOutcome(states[..n], requests[..n - 1], failed[..n - 1], k);
      OutcomeAcross(states[0], states[n - 1], states[n], requests[k], requests[n - 1], failed[k], failed[n - 1]);
    }
  }

  /** The five requests of `Start`, in the order it issues them. */
  const StartOrder: seq<Request> := [Base, Emissive, Occlusion, MetallicRoughness, Normal]

  /** Five steps in `Start`'s order make one completed run. */
  lemma StartCompletes(s0: MaterialState, s1: MaterialState, s2: MaterialState, s3: MaterialState,
                       s4: MaterialState, s5: MaterialState, fb: bool, fe: bool, fo: bool, fm: bool, fn: bool)
    requires Step(s0, s1, Base, fb) && Step(s1, s2, Emissive, fe) && Step(s2, s3, Occlusion, fo)
    requires Step(s3, s4, MetallicRoughness, fm) && Step(s4, s5, Normal, fn)
    ensures Completes([s0, s1, s2, s3, s4, s5], StartOrder, [fb, fe, fo, fm, fn]) && Distinct(StartOrder)
  {
    var states, failed := [s0, s1, s2, s3, s4, s5], [fb, fe, fo, fm, fn];
    forall i | 0 <= i < 5
      ensures Step(states[i], states[i + 1], StartOrder[i], failed[i])
    {
    }
  }

  /**
   * The five requests of `Start` completing in the order they are issued: each
   * one's outcome, and the texture it installed, survive the requests after it.
   */
  lemma StartOutcome(s0: MaterialState, s1: MaterialState, s2: MaterialState, s3: MaterialState,
                     s4: MaterialState, s5: MaterialState, fb: bool, fe: bool, fo: bool, fm: bool, fn: bool)
    requires Step(s0, s1, Base, fb) && Step(s1, s2, Emissive, fe) && Step(s2, s3, Occlusion, fo)
    requires Step(s3, s4, MetallicRoughness, fm) && Step(s4, s5, Normal, fn)
    ensures Outcome(s0, s5, Base, fb) && SameEntry(s1.textures, s5.textures, MainTex)
    ensures Outcome(s0, s5, Emissive, fe) && SameEntry(s2.textures, s5.textures, EmissionMap)
    ensures Outcome(s0, s5, Occlusion, fo) && SameEntry(s3.textures, s5.textures, OcclusionMap)
    ensures Outcome(s0, s5, MetallicRoughness, fm) && SameEntry(s4.textures, s5.textures, MetallicGlossMap)
    ensures Outcome(s0, s5, Normal, fn)
  {
    var states, failed := [s0, s1, s2, s3, s4, s5], [fb, fe, fo, fm, fn];
    StartCompletes(s0, s1, s2, s3, s4, s5, fb, fe, fo, fm, fn);
    CompletedOutcome(states, StartOrder, failed, 0);
    CompletedOutcome(states, StartOrder, failed, 1);
    CompletedOutcome(states, StartOrder, failed, 2);
    CompletedOutcome(states, StartOrder, failed, 3);
    CompletedOutcome(states, StartOrder, failed, 4);
  }

  // ---------------------------------------------------------------------------
  // Downloads

  /** The outcome a web request reports. */
  datatype RequestResult = InProgress | Success | ConnectionError | ProtocolError | DataProcessingError

  /** A completed texture request: its outcome and the texture its handler decodes. */
  datatype Download = Download(result: RequestResult, content: Texture)

  /** The two outcomes the loader treats as failures. */
  predicate Failed(d: Download): (b: bool)
    ensures !b <==> d.result in {Success, InProgress, DataProcessingError}
  {
    d.result == ConnectionError || d.result == ProtocolError
  }

  // ---------------------------------------------------------------------------
  // The component

  class AdvancedTextureLoader {
    const baseMapUrl: string
    const emissiveMapUrl: string
    const occlusionMapUrl: string
    const metallicRoughnessMapUrl: string
    const normalMapUrl: string
    /** The renderer's material, looked up once when the component starts. */
    const material: Material

    constructor (baseMapUrl: string, emissiveMapUrl: string, occlusionMapUrl: string,
                 metallicRoughnessMapUrl: string, normalMapUrl: string, rendererMaterial: Material)
      ensures this.baseMapUrl == baseMapUrl && this.emissiveMapUrl == emissiveMapUrl
      ensures this.occlusionMapUrl == occlusionMapUrl && this.metallicRoughnessMapUrl == metallicRoughnessMapUrl
      ensures this.normalMapUrl == normalMapUrl && material == rendererMaterial
    {
      this.baseMapUrl := baseMapUrl;
      this.emissiveMapUrl := emissiveMapUrl;
      this.occlusionMapUrl := occlusionMapUrl;
      this.metallicRoughnessMapUrl := metallicRoughnessMapUrl;
      this.normalMapUrl := normalMapUrl;
      material := rendererMaterial;
    }

    /**
     * Starts the five requests. Each one's effect on the material depends on
     * its own download only: a failed download leaves its part of the material
     * as it was, a successful one delivers its texture and settings.
     */
    method Start(fetch: string -> Download)
      modifies material
      ensures Settled(old(material.state), material.state, Base, fetch(baseMapUrl))
      ensures Settled(old(material.state), material.state, Emissive, fetch(emissiveMapUrl))
      ensures Settled(old(material.state), material.state, Occlusion, fetch(occlusionMapUrl))
      ensures Settled(old(material.state), material.state, MetallicRoughness, fetch(metallicRoughnessMapUrl))
      ensures Settled(old(material.state), material.state, Normal, fetch(normalMapUrl))
    {
      ghost var s0 := material.state;
      var base, emissive, occlusion := fetch(baseMapUrl), fetch(emissiveMapUrl), fetch(occlusionMapUrl);
      var metallicRoughness, normal := fetch(metallicRoughnessMapUrl), fetch(normalMapUrl);
      ghost var fb, fe, fo, fm, fn := Failed(base), Failed(emissive), Failed(occlusion),
                                      Failed(metallicRoughness), Failed(normal);
      LoadTexture(base, Base);
      ghost var s1 := material.state;
      LoadTexture(emissive, Emissive);
      ghost var s2 := material.state;
      LoadTexture(occlusion, Occlusion);
      ghost var s3 := material.state;
      LoadAndConvertMetallicRoughness(metallicRoughness);
      ghost var s4 := material.state;
      label Converted:
      LoadTexture(normal, Normal);
      ghost var s5 := material.state;

      StartOutcome(s0, s1, s2, s3, s4, s5, fb, fe, fo, fm, fn);
      if !fm {
        // the converted map is a texture that the last request did not write
        var t := s4.textures[MetallicGlossMap];
        assert old@Converted(IsMetallicGlossOf(t, metallicRoughness.content));
      }
    }

    /** Applies a downloaded texture through `apply`, unless the download failed. */
    method LoadTexture(download: Download, apply: Callback)
      modifies material
      ensures Step(old(material.state), material.state, apply, Failed(download))
      ensures Supplied(material.state, apply, download)
    {
      if download.result == ConnectionError || download.result == ProtocolError {
        // the error is logged and nothing else happens
      } else {
        var texture := download.content;
        ApplyTexture(apply, texture);
      }
    }

    /** The four callbacks the component passes to `LoadTexture`. */
    method ApplyTexture(apply: Callback, texture: Texture)
      modifies material
      ensures Slot(apply) in material.state.textures
      ensures material.state == Installed(old(material.state), apply, material.state.textures[Slot(apply)])
      ensures Derived(apply, material.state.textures[Slot(apply)], texture)
    {
      match apply
      case Base =>
        material.SetTexture(MainTex, texture);
      case Emissive =>
        material.EnableEmission();
        material.SetGIFlags(RealtimeEmissive);
        material.SetEmissionColor(EmissionWhite);
        material.SetTexture(EmissionMap, texture);
      case Occlusion =>
        material.SetTexture(OcclusionMap, texture);
      case Normal =>
        ApplyNormalMap(texture);
    }

    /** Re-encodes `normalMap` and installs the result as the material's normal map, at scale 1. */
    method ApplyNormalMap(normalMap: Texture)
      modifies material
      ensures BumpMap in material.state.textures
      ensures material.state == Installed(old(material.state), Normal, material.state.textures[BumpMap])
      ensures IsNormalMapOf(material.state.textures[BumpMap], normalMap)
    {
      var normalMapTexture := RemapNormalMap(normalMap);
      material.SetTexture(BumpMap, normalMapTexture);
      material.SetFloat(BumpScale, 1.0);
    }

    /**
     * Converts a downloaded metallic-roughness map and installs it as the
     * material's metallic/gloss map with both factors at 1, unless the
     * download failed.
     */
    method LoadAndConvertMetallicRoughness(download: Download)
      modifies material
      ensures Step(old(material.state), material.state, MetallicRoughness, Failed(download))
      ensures Supplied(material.state, MetallicRoughness, download)
    {
      if download.result == ConnectionError || download.result == ProtocolError {
        // the error is logged and nothing else happens
      } else {
        var originalTexture := download.content;
        var convertedTexture := ConvertMetallicRoughness(originalTexture);
        material.SetTexture(MetallicGlossMap, convertedTexture);
        material.SetFloat(MetallicFactor, 1.0);
        material.SetFloat(GlossinessFactor, 1.0);
      }
    }
  }
}
