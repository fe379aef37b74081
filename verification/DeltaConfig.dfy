/** Atomic check as a delta encoding.

Each commit duplicates the last requested configuration of every CRTC it
affects, lets every plane in it overwrite the slots it leaves and enters, and
marks the fields that changed.  A flip applies only marked fields; a commit with a
head that needs SET_MODE applies every field of every head in it.  The reference
is the whole configuration that the DRM plane, CRTC and connector states ask for,
computed from those states alone. */
module DeltaConfig {

  import opened Common

  const LAYER_MAX: nat := 8
  const MAX_CLONE_DISPLAYS: nat := 16

  // --------------------------------------------------------------- DRM's state

  /** A drm_plane: which slot of a head it fills. */
  datatype Slot = Cursor | Layer(index: nat)

  /** A drm_plane_state.  Source values are 16.16 fixed point; look stands for blending,
  rotation and presentation interval; fenced: it has an in-fence or asks for an out-fence. */
  datatype PlaneState = PlaneState(
    crtc: Option<nat>,
    fb: Option<nat>,
    srcX: nat, srcY: nat, srcW: nat, srcH: nat,
    crtcX: int, crtcY: int, crtcW: nat, crtcH: nat,
    look: nat,
    fenced: bool)

  datatype CrtcState = CrtcState(active: bool, mode: nat)

  /** A drm_connector_state, with the display of its detected encoder. */
  datatype ConnectorState = ConnectorState(crtc: Option<nat>, display: Option<nat>)

  datatype DrmState = DrmState(planes: seq<PlaneState>, crtcs: seq<CrtcState>, connectors: seq<ConnectorState>)

  /** mode_changed, connectors_changed and active_changed of a drm_crtc_state. */
  datatype CrtcChanges = CrtcChanges(mode: bool, connectors: bool, active: bool)

  /** A drm_atomic_state: which objects it holds, and the proposed state of all. */
  datatype Commit = Commit(
    planesIn: seq<bool>,
    crtcsIn: seq<bool>,
    connectorsIn: seq<bool>,
    changes: seq<CrtcChanges>,
    proposed: DrmState)

  // ------------------------------------------------- the driver's requested config

  datatype LayerConfig = LayerConfig(
    surface: Option<nat>,
    look: nat,
    srcX: nat, srcY: nat, srcW: nat, srcH: nat,
    dstX: int, dstY: int, dstW: nat, dstH: nat)

  const NO_LAYER := LayerConfig(None, 0, 0, 0, 0, 0, 0, 0, 0, 0)

  datatype LayerFlags = LayerFlags(surface: bool, srcXY: bool, srcWH: bool, dstXY: bool, dstWH: bool)

  const ALL_CHANGED := LayerFlags(true, true, true, true, true)
  const NONE_CHANGED := LayerFlags(false, false, false, false, false)

  datatype LayerReq = LayerReq(config: LayerConfig, flags: LayerFlags)

  datatype CursorReq = CursorReq(
    surface: Option<nat>,
    look: nat,
    dstX: int, dstY: int,
    surfaceChanged: bool, dstXYChanged: bool)

  const NO_CURSOR := CursorReq(None, 0, 0, 0, false, false)

  datatype ModeSet = ModeSet(active: bool, displays: seq<nat>, mode: nat)

  datatype HeadReq = HeadReq(
    modeSet: ModeSet,
    activeChanged: bool, displaysChanged: bool, modeChanged: bool,
    cursor: CursorReq,
    layers: seq<LayerReq>)

  // ------------------------------------------------------- the spec of each check

  /** Conversion to NvU16 and NvS16. */
  function U16(x: nat): (r: nat)
    ensures r < 0x10000 && (x < 0x10000 ==> r == x) && (x - r) % 0x10000 == 0
  {
    x % 0x10000
  }

  function S16(x: int): (r: int)
    ensures -0x8000 <= r < 0x8000 && (-0x8000 <= x < 0x8000 ==> r == x) && (x - r) % 0x10000 == 0
  {
    (x + 0x8000) % 0x10000 - 0x8000
  }

  /** The whole layer configuration a plane state asks for. */
  function FullLayer(ps: PlaneState): (g: LayerConfig) {
    if ps.fb.None? then NO_LAYER
    else
      LayerConfig(ps.fb, ps.look,
                  U16(ps.srcX / 0x10000), U16(ps.srcY / 0x10000), U16(ps.srcW / 0x10000), U16(ps.srcH / 0x10000),
                  S16(ps.crtcX), S16(ps.crtcY), U16(ps.crtcW), U16(ps.crtcH))
  }

  /** plane_req_config_disable. */
  function DisabledLayer(): (r: LayerReq) {
    LayerReq(NO_LAYER, ALL_CHANGED)
  }

  /** plane_req_config_update, when it succeeds. */
  function UpdatedLayer(prev: LayerConfig, ps: PlaneState): (r: LayerReq) {
    if ps.fb.None? then DisabledLayer()
    else
      var g := FullLayer(ps);
      if prev.surface.None? then LayerReq(g, ALL_CHANGED)
      else
        LayerReq(g, LayerFlags(true,
                               prev.srcX != g.srcX || prev.srcY != g.srcY,
                               prev.srcW != g.srcW || prev.srcH != g.srcH,
                               prev.dstX != g.dstX || prev.dstY != g.dstY,
                               prev.dstW != g.dstW || prev.dstH != g.dstH))
  }

  /** cursor_req_config_disable. */
  function DisabledCursor(prev: CursorReq): (r: CursorReq) {
    prev.(surface := None, surfaceChanged := true)
  }

  /** cursor_plane_req_config_update. */
  function UpdatedCursor(prev: CursorReq, ps: PlaneState): (r: CursorReq) {
    if ps.fb.None? then DisabledCursor(prev)
    else
      var x, y := S16(ps.crtcX), S16(ps.crtcY);
      CursorReq(ps.fb, ps.look, x, y, true, prev.surface.None? || prev.dstX != x || prev.dstY != y)
  }

  predicate Leaves(was: PlaneState, now: PlaneState, c: nat) {
    was.crtc == Some(c) && was.crtc != now.crtc
  }

  predicate Fills(now: PlaneState, c: nat) {
    now.crtc == Some(c)
  }

  /** What the check of one plane does to one CRTC's request. */
  function PlaneOnHead(q: HeadReq, slot: Slot, was: PlaneState, now: PlaneState, c: nat): (r: HeadReq) {
    match slot
    case Cursor =>
      if Leaves(was, now, c) then q.(cursor := DisabledCursor(q.cursor))
      else if Fills(now, c) then q.(cursor := UpdatedCursor(q.cursor, now))
      else q
    case Layer(l) =>
      if l >= |q.layers| then q
      else if Leaves(was, now, c) then q.(layers := q.layers[l := DisabledLayer()])
      else if Fills(now, c) then q.(layers := q.layers[l := UpdatedLayer(q.layers[l].config, now)])
      else q
  }

  /** The error of plane_req_config_update: a fence, and no support for syncpoints. */
  predicate Refused(slot: Slot, now: PlaneState, syncpts: bool) {
    slot.Layer? && now.fb.Some? && now.fenced && !syncpts
  }

  /** The displays routed to a CRTC, in connector order, up to the n-th connector. */
  function Routed(cs: seq<ConnectorState>, c: nat, n: nat): (ds: seq<nat>)
    requires n <= |cs|
  {
    if n == 0 then []
    else
      var k := cs[n - 1];
      Routed(cs, c, n - 1) + if k.crtc == Some(c) && k.display.Some? then [k.display.value] else []
  }

  /** The same over the connectors that a commit holds. */
  function RoutedIn(cs: seq<ConnectorState>, held: seq<bool>, c: nat, n: nat): (ds: seq<nat>)
    requires n <= |cs| == |held|
  {
    if n == 0 then []
    else
      var k := cs[n - 1];
      RoutedIn(cs, held, c, n - 1)
      + if held[n - 1] && k.crtc == Some(c) && k.display.Some? then [k.display.value] else []
  }

  /** nv_drm_crtc_atomic_check, when it succeeds. */
  function HeadChecked(q: HeadReq, ch: CrtcChanges, cs: CrtcState, displays: seq<nat>): (r: HeadReq) {
    var m := q.modeSet;
    q.(modeSet := ModeSet(if ch.active then cs.active else m.active,
                          if ch.connectors then displays else m.displays,
                          if ch.mode then cs.mode else m.mode),
       activeChanged := q.activeChanged || ch.active,
       displaysChanged := q.displaysChanged || ch.connectors,
       modeChanged := q.modeChanged || ch.mode)
  }

  /** nv_drm_crtc_duplicate_req_head_modeset_config: no change yet; the cursor's
  configuration is not carried over. */
  function Duplicated(q: HeadReq): (r: HeadReq) {
    HeadReq(q.modeSet, false, false, false, NO_CURSOR,
            seq(|q.layers|, i requires 0 <= i < |q.layers| => LayerReq(q.layers[i].config, NONE_CHANGED)))
  }

  // ------------------------------------------------------------------ the hardware

  datatype HwCursor = HwCursor(surface: Option<nat>, look: nat, x: int, y: int)

  datatype HwHead = HwHead(modeSet: ModeSet, cursor: HwCursor, layers: seq<LayerConfig>)

  /** Only the marked fields of a layer are applied. */
  function ApplyLayer(hw: LayerConfig, q: LayerReq): (r: LayerConfig) {
    var g, f := q.config, q.flags;
    LayerConfig(if f.surface then g.surface else hw.surface, if f.surface then g.look else hw.look,
                if f.srcXY then g.srcX else hw.srcX, if f.srcXY then g.srcY else hw.srcY,
                if f.srcWH then g.srcW else hw.srcW, if f.srcWH then g.srcH else hw.srcH,
                if f.dstXY then g.dstX else hw.dstX, if f.dstXY then g.dstY else hw.dstY,
                if f.dstWH then g.dstW else hw.dstW, if f.dstWH then g.dstH else hw.dstH)
  }

  function ApplyCursor(hw: HwCursor, q: CursorReq): (r: HwCursor) {
    HwCursor(if q.surfaceChanged then q.surface else hw.surface, if q.surfaceChanged then q.look else hw.look,
             if q.dstXYChanged then q.dstX else hw.x, if q.dstXYChanged then q.dstY else hw.y)
  }

  function ApplyHead(hw: HwHead, q: HeadReq): (r: HwHead)
    requires |hw.layers| == |q.layers|
  {
    HwHead(ModeSet(if q.activeChanged then q.modeSet.active else hw.modeSet.active,
                   if q.displaysChanged then q.modeSet.displays else hw.modeSet.displays,
                   if q.modeChanged then q.modeSet.mode else hw.modeSet.mode),
           ApplyCursor(hw.cursor, q.cursor),
           seq(|hw.layers|, i requires 0 <= i < |hw.layers| => ApplyLayer(hw.layers[i], q.layers[i])))
  }

  /** A head is shown when it is active and has displays; all others are off. */
  predicate Shown(m: ModeSet) {
    m.active && m.displays != []
  }

  /** NVKMS_IOCTL_SET_MODE applies every field of a shown head, marked or not. */
  function SetModeHead(q: HeadReq): (r: HwHead) {
    HwHead(q.modeSet, HwCursor(q.cursor.surface, q.cursor.look, q.cursor.dstX, q.cursor.dstY),
           seq(|q.layers|, i requires 0 <= i < |q.layers| => q.layers[i].config))
  }

  /** ApplyModeSetConfig's test for the SET_MODE path, for one head of the request. */
  predicate NeedsSetMode(q: HeadReq) {
    || (q.layers != [] && (q.layers[0].flags.srcWH || q.layers[0].flags.dstXY || q.layers[0].flags.dstWH))
    || q.activeChanged || q.displaysChanged || q.modeChanged
  }

  /** One head of the request, None meaning that the head is off: SET_MODE turns a head
  that is not to be shown off, and a flip skips it. */
  function Programmed(hw: Option<HwHead>, q: HeadReq, setMode: bool): (r: Option<HwHead>) {
    if setMode then (if Shown(q.modeSet) then Some(SetModeHead(q)) else None)
    else if Shown(q.modeSet) && hw.Some? && |hw.value.layers| == |q.layers| then Some(ApplyHead(hw.value, q))
    else hw
  }

  // ----------------------------------------------------------------- whole commits

  /** One CRTC's request after the first n planes of a commit have been checked. */
  function HeadAfter(q: HeadReq, slots: seq<Slot>, was: DrmState, m: Commit, c: nat, n: nat): (r: HeadReq)
    requires n <= |slots| && |was.planes| == |m.proposed.planes| == |slots| == |m.planesIn|
  {
    if n == 0 then q
    else
      var before := HeadAfter(q, slots, was, m, c, n - 1);
      if m.planesIn[n - 1] then PlaneOnHead(before, slots[n - 1], was.planes[n - 1], m.proposed.planes[n - 1], c)
      else before
  }

  predicate Fits(slots: seq<Slot>, d: DrmState) {
    && |d.planes| == |slots|
    && forall i :: 0 <= i < |slots| && slots[i].Layer? ==> slots[i].index < LAYER_MAX
  }

  predicate Sized(slots: seq<Slot>, was: DrmState, m: Commit) {
    && Fits(slots, was) && Fits(slots, m.proposed)
    && |m.planesIn| == |slots|
    && |m.crtcsIn| == |was.crtcs| == |m.proposed.crtcs| == |m.changes|
    && |m.connectorsIn| == |was.connectors| == |m.proposed.connectors|
  }

  function HeadCommitted(q: HeadReq, slots: seq<Slot>, was: DrmState, m: Commit, c: nat): (r: HeadReq)
    requires Sized(slots, was, m) && c < |m.changes|
  {
    HeadChecked(HeadAfter(Duplicated(q), slots, was, m, c, |slots|), m.changes[c], m.proposed.crtcs[c],
                RoutedIn(m.proposed.connectors, m.connectorsIn, c, |m.proposed.connectors|))
  }

  /** Plane p is at slot k of CRTC c. */
  predicate At(slots: seq<Slot>, d: DrmState, p: nat, c: nat, k: Slot)
    requires |d.planes| == |slots|
  {
    p < |slots| && slots[p] == k && d.planes[p].crtc == Some(c)
  }

  /** No two planes are at the same slot of a CRTC. */
  ghost predicate Exclusive(slots: seq<Slot>, d: DrmState)
    requires |d.planes| == |slots|
  {
    forall p: nat, q: nat, c: nat, k: Slot :: At(slots, d, p, c, k) && At(slots, d, q, c, k) ==> p == q
  }

  /** What the DRM core guarantees of a commit: objects it does not hold stay as they
  are, a CRTC gained or lost by a plane is in it, and what is not marked as
  changed on a CRTC has not changed. */
  ghost predicate Proper(slots: seq<Slot>, was: DrmState, m: Commit) {
    && Sized(slots, was, m)
    && Exclusive(slots, was) && Exclusive(slots, m.proposed)
    && (forall p :: 0 <= p < |slots| && !m.planesIn[p] ==> m.proposed.planes[p] == was.planes[p])
    && (forall p, c :: 0 <= p < |slots| && m.planesIn[p] && 0 <= c < |m.crtcsIn| && !m.crtcsIn[c] ==>
          !Fills(was.planes[p], c) && !Fills(m.proposed.planes[p], c))
    && (forall c :: 0 <= c < |m.crtcsIn| ==> CrtcProper(was, m, c))
  }

  predicate CrtcProper(was: DrmState, m: Commit, c: nat)
    requires c < |m.crtcsIn| == |m.changes| == |was.crtcs| == |m.proposed.crtcs|
    requires |m.connectorsIn| == |was.connectors| == |m.proposed.connectors|
  {
    var ch := if m.crtcsIn[c] then m.changes[c] else CrtcChanges(false, false, false);
    && (!ch.mode ==> m.proposed.crtcs[c].mode == was.crtcs[c].mode)
    && (!ch.active ==> m.proposed.crtcs[c].active == was.crtcs[c].active)
    && (!ch.connectors ==>
          Routed(m.proposed.connectors, c, |m.proposed.connectors|) == Routed(was.connectors, c, |was.connectors|))
    && (ch.connectors ==>
          forall j :: 0 <= j < |m.connectorsIn| && m.proposed.connectors[j].crtc == Some(c) ==> m.connectorsIn[j])
  }

  /** The plane at a slot, among the first n. */
  function Occupant(slots: seq<Slot>, d: DrmState, c: nat, k: Slot, n: nat): (p: Option<nat>)
    requires |d.planes| == |slots| && n <= |slots|
    ensures p.Some? ==> p.value < n && At(slots, d, p.value, c, k)
    ensures p.None? ==> forall i: nat :: i < n ==> !At(slots, d, i, c, k)
  {
    if n == 0 then None
    else if At(slots, d, n - 1, c, k) then Some(n - 1)
    else Occupant(slots, d, c, k, n - 1)
  }

  /** The reference: what the DRM state asks for at a layer, and of the cursor. */
  function WantedLayer(slots: seq<Slot>, d: DrmState, c: nat, l: nat): (g: LayerConfig)
    requires |d.planes| == |slots|
  {
    var p := Occupant(slots, d, c, Layer(l), |slots|);
    if p.None? then NO_LAYER else FullLayer(d.planes[p.value])
  }

  predicate CursorAsWanted(hw: HwCursor, slots: seq<Slot>, d: DrmState, c: nat)
    requires |d.planes| == |slots|
  {
    var p := Occupant(slots, d, c, Cursor, |slots|);
    if p.None? then hw.surface.None?
    else
      var ps := d.planes[p.value];
      hw.surface == ps.fb && (ps.fb.Some? ==> hw.look == ps.look && hw.x == S16(ps.crtcX) && hw.y == S16(ps.crtcY))
  }

  function WantedModeSet(d: DrmState, c: nat): (m: ModeSet)
    requires c < |d.crtcs|
  {
    ModeSet(d.crtcs[c].active, Routed(d.connectors, c, |d.connectors|), d.crtcs[c].mode)
  }

  // ---------------------------------------------------------------------- the deltas

  /** Applying only what changed gives the whole configuration. */
  lemma DeltaIsFull(hw: LayerConfig, ps: PlaneState)
    ensures ApplyLayer(hw, UpdatedLayer(hw, ps)) == FullLayer(ps)
    ensures UpdatedLayer(hw, ps).config == FullLayer(ps)
    ensures ApplyLayer(hw, DisabledLayer()) == NO_LAYER
    ensures ApplyLayer(hw, UpdatedLayer(NO_LAYER, ps)) == FullLayer(ps)
    ensures ApplyLayer(hw, LayerReq(hw, NONE_CHANGED)) == hw
  {
  }

  /** What the planes of a commit have done to a slot: nothing; cleared it last; or
  filled it last, by plane p. */
  datatype Effect = Untouched | Cleared | Filled(p: nat)

  function EffectOn(slots: seq<Slot>, was: DrmState, m: Commit, c: nat, k: Slot, n: nat): (e: Effect)
    requires Sized(slots, was, m) && n <= |slots|
  {
    if n == 0 then Untouched
    else if !m.planesIn[n - 1] || slots[n - 1] != k then EffectOn(slots, was, m, c, k, n - 1)
    else if Leaves(was.planes[n - 1], m.proposed.planes[n - 1], c) then Cleared
    else if Fills(m.proposed.planes[n - 1], c) then Filled(n - 1)
    else EffectOn(slots, was, m, c, k, n - 1)
  }

  lemma {:induction false} FilledBy(slots: seq<Slot>, was: DrmState, m: Commit, c: nat, k: Slot, n: nat)
    requires Sized(slots, was, m) && n <= |slots|
    ensures var e := EffectOn(slots, was, m, c, k, n);
            e.Filled? ==> e.p < n && m.planesIn[e.p] && At(slots, m.proposed, e.p, c, k)
  {
    if n > 0 {
      FilledBy(slots, was, m, c, k, n - 1);
    }
  }

  predicate Touches(slots: seq<Slot>, was: DrmState, m: Commit, c: nat, k: Slot, p: nat)
    requires Sized(slots, was, m) && p < |slots|
  {
    m.planesIn[p] && slots[p] == k && (Leaves(was.planes[p], m.proposed.planes[p], c) || Fills(m.proposed.planes[p], c))
  }

  /** The effect is that of the last plane to touch the slot. */
  lemma {:induction false} LastToTouch(slots: seq<Slot>, was: DrmState, m: Commit, c: nat, k: Slot, p: nat, n: nat)
    requires Sized(slots, was, m) && p < n <= |slots| && Touches(slots, was, m, c, k, p)
    requires forall i :: p < i < n ==> !Touches(slots, was, m, c, k, i)
    ensures EffectOn(slots, was, m, c, k, n)
         == if Leaves(was.planes[p], m.proposed.planes[p], c) then Cleared else Filled(p)
  {
    if p < n - 1 {
      assert !Touches(slots, was, m, c, k, n - 1);
      LastToTouch(slots, was, m, c, k, p, n - 1);
    }
  }

  lemma {:induction false} TouchShows(slots: seq<Slot>, was: DrmState, m: Commit, c: nat, k: Slot, p: nat, n: nat)
    requires Sized(slots, was, m) && p < n <= |slots| && Touches(slots, was, m, c, k, p)
    ensures !EffectOn(slots, was, m, c, k, n).Untouched?
  {
    if p < n - 1 {
      TouchShows(slots, was, m, c, k, p, n - 1);
    }
  }

  lemma {:induction false} NoneTouch(slots: seq<Slot>, was: DrmState, m: Commit, c: nat, k: Slot, n: nat)
    requires Sized(slots, was, m) && n <= |slots|
    requires forall i :: 0 <= i < n ==> !Touches(slots, was, m, c, k, i)
    ensures EffectOn(slots, was, m, c, k, n).Untouched?
  {
    if n > 0 {
      assert !Touches(slots, was, m, c, k, n - 1);
      NoneTouch(slots, was, m, c, k, n - 1);
    }
  }

  /** Plane b enters the slot that plane a leaves, and is checked before it. */
  predicate Crossing(slots: seq<Slot>, was: DrmState, m: Commit, c: nat, k: Slot, b: nat, a: nat)
    requires Sized(slots, was, m)
  {
    && b < a < |slots| && m.planesIn[a] && m.planesIn[b] && slots[a] == k && slots[b] == k
    && Leaves(was.planes[a], m.proposed.planes[a], c)
    && Fills(m.proposed.planes[b], c) && m.proposed.planes[b].fb.Some?
  }

  ghost predicate Crossed(slots: seq<Slot>, was: DrmState, m: Commit, c: nat, k: Slot)
    requires Sized(slots, was, m)
  {
    exists b: nat, a: nat :: Crossing(slots, was, m, c, k, b, a)
  }

  lemma OccupantIs(slots: seq<Slot>, d: DrmState, c: nat, k: Slot, p: nat)
    requires |d.planes| == |slots| && Exclusive(slots, d) && At(slots, d, p, c, k)
    ensures Occupant(slots, d, c, k, |slots|) == Some(p)
  {
  }

  /** A plane of the commit at the slot has the last word unless crossed. */
  lemma FillerWins(slots: seq<Slot>, was: DrmState, m: Commit, c: nat, k: Slot, b: nat)
    requires Proper(slots, was, m) && At(slots, m.proposed, b, c, k) && m.planesIn[b]
    requires forall a: nat :: !Crossing(slots, was, m, c, k, b, a)
    requires m.proposed.planes[b].fb.Some?
    ensures EffectOn(slots, was, m, c, k, |slots|) == Filled(b)
  {
    forall i | b < i < |slots| ensures !Touches(slots, was, m, c, k, i) {
      assert !Crossing(slots, was, m, c, k, b, i);
      var entered := At(slots, m.proposed, i, c, k);
    }
    assert !Leaves(was.planes[b], m.proposed.planes[b], c);
    LastToTouch(slots, was, m, c, k, b, |slots|);
  }

  lemma CrossedCleared(slots: seq<Slot>, was: DrmState, m: Commit, c: nat, k: Slot, b: nat, a: nat)
    requires Proper(slots, was, m) && Crossing(slots, was, m, c, k, b, a)
    ensures EffectOn(slots, was, m, c, k, |slots|) == Cleared
    ensures Occupant(slots, m.proposed, c, k, |slots|) == Some(b)
  {
    assert At(slots, was, a, c, k) && At(slots, m.proposed, b, c, k);
    OccupantIs(slots, m.proposed, c, k, b);
    forall i | a < i < |slots| ensures !Touches(slots, was, m, c, k, i) {
      var entered, held := At(slots, m.proposed, i, c, k), At(slots, was, i, c, k);
    }
    LastToTouch(slots, was, m, c, k, a, |slots|);
  }

  /** With no plane of the commit at the slot in the proposed state: it is cleared if
  one left it, and otherwise occupied as before. */
  lemma NoFiller(slots: seq<Slot>, was: DrmState, m: Commit, c: nat, k: Slot)
    requires Proper(slots, was, m)
    requires forall b: nat :: At(slots, m.proposed, b, c, k) ==> !m.planesIn[b]
    ensures EffectOn(slots, was, m, c, k, |slots|).Cleared? ==> Occupant(slots, m.proposed, c, k, |slots|).None?
    ensures EffectOn(slots, was, m, c, k, |slots|).Untouched? ==>
              Occupant(slots, m.proposed, c, k, |slots|) == Occupant(slots, was, c, k, |slots|)
    ensures !EffectOn(slots, was, m, c, k, |slots|).Filled?
  {
    FilledBy(slots, was, m, c, k, |slots|);
    var e := EffectOn(slots, was, m, c, k, |slots|);
    var now := Occupant(slots, m.proposed, c, k, |slots|);
    if now.Some? {
      var p := now.value;
      assert At(slots, m.proposed, p, c, k) && At(slots, was, p, c, k);
      OccupantIs(slots, was, c, k, p);
      StillThere(slots, was, m, c, k, p);
    } else {
      var before := Occupant(slots, was, c, k, |slots|);
      if before.Some? {
        LeftIt(slots, was, m, c, k, before.value);
      }
    }
  }

  lemma StillThere(slots: seq<Slot>, was: DrmState, m: Commit, c: nat, k: Slot, p: nat)
    requires Proper(slots, was, m) && At(slots, was, p, c, k) && At(slots, m.proposed, p, c, k) && !m.planesIn[p]
    ensures EffectOn(slots, was, m, c, k, |slots|).Untouched?
  {
    forall i | 0 <= i < |slots| ensures !Touches(slots, was, m, c, k, i) {
      var entered, held := At(slots, m.proposed, i, c, k), At(slots, was, i, c, k);
    }
    NoneTouch(slots, was, m, c, k, |slots|);
  }

  lemma LeftIt(slots: seq<Slot>, was: DrmState, m: Commit, c: nat, k: Slot, p: nat)
    requires Proper(slots, was, m) && At(slots, was, p, c, k)
    requires forall b: nat :: !At(slots, m.proposed, b, c, k)
    ensures EffectOn(slots, was, m, c, k, |slots|).Cleared?
  {
    assert !At(slots, m.proposed, p, c, k);
    forall i | p < i < |slots| ensures !Touches(slots, was, m, c, k, i) {
      var entered, held := At(slots, m.proposed, i, c, k), At(slots, was, i, c, k);
    }
    LastToTouch(slots, was, m, c, k, p, |slots|);
  }

  /** A source value in 16.16 fixed point, with its whole part. */
  predicate Fixed(value: nat, whole: nat) {
    whole < 0x10000 && whole * 0x10000 <= value < (whole + 1) * 0x10000
  }

  lemma WholePart(value: nat, whole: nat)
    requires Fixed(value, whole)
    ensures U16(value / 0x10000) == whole
  {
    assert value / 0x10000 == whole;
  }

  /** The layer holds the plane's framebuffer, the whole parts of its source rectangle at
  x, y of size w by h, and its rectangle on the CRTC. */
  predicate HoldsPlane(g: LayerConfig, ps: PlaneState, x: nat, y: nat, w: nat, h: nat) {
    && g.surface == ps.fb && g.look == ps.look
    && g.srcX == x && g.srcY == y && g.srcW == w && g.srcH == h
    && (-0x8000 <= ps.crtcX < 0x8000 ==> g.dstX == ps.crtcX) && (-0x8000 <= ps.crtcY < 0x8000 ==> g.dstY == ps.crtcY)
    && (ps.crtcW < 0x10000 ==> g.dstW == ps.crtcW) && (ps.crtcH < 0x10000 ==> g.dstH == ps.crtcH)
  }

  predicate Source(ps: PlaneState, x: nat, y: nat, w: nat, h: nat) {
    Fixed(ps.srcX, x) && Fixed(ps.srcY, y) && Fixed(ps.srcW, w) && Fixed(ps.srcH, h)
  }

  /** What an update writes, in the plane's own terms; a plane without a framebuffer, or
  one that leaves, writes an empty layer. */
  lemma LayerAsAsked(prev: LayerConfig, ps: PlaneState, x: nat, y: nat, w: nat, h: nat)
    requires Source(ps, x, y, w, h)
    ensures ps.fb.Some? ==> HoldsPlane(UpdatedLayer(prev, ps).config, ps, x, y, w, h)
    ensures ps.fb.None? ==> UpdatedLayer(prev, ps).config.surface.None?
    ensures DisabledLayer().config.surface.None?
  {
    WholePart(ps.srcX, x);
    WholePart(ps.srcY, y);
    WholePart(ps.srcW, w);
    WholePart(ps.srcH, h);
  }

  /** What an update of the cursor writes. */
  lemma CursorAsAsked(prev: CursorReq, ps: PlaneState)
    ensures var r := UpdatedCursor(prev, ps);
            && r.surface == ps.fb && r.surfaceChanged
            && (ps.fb.Some? && -0x8000 <= ps.crtcX < 0x8000 ==> r.dstX == ps.crtcX)
            && (ps.fb.Some? && -0x8000 <= ps.crtcY < 0x8000 ==> r.dstY == ps.crtcY)
  {
  }

  // ------------------------------------------------------------------------- layers

  function LayerAfter(q: LayerReq, slots: seq<Slot>, was: DrmState, m: Commit, c: nat, l: nat, n: nat): (r: LayerReq)
    requires Sized(slots, was, m) && n <= |slots|
  {
    if n == 0 then q
    else
      var before := LayerAfter(q, slots, was, m, c, l, n - 1);
      if !m.planesIn[n - 1] || slots[n - 1] != Layer(l) then before
      else if Leaves(was.planes[n - 1], m.proposed.planes[n - 1], c) then DisabledLayer()
      else if Fills(m.proposed.planes[n - 1], c) then UpdatedLayer(before.config, m.proposed.planes[n - 1])
      else before
  }

  /** The checks of the planes act on each layer separately, and leave the rest alone. */
  lemma {:induction false} LayerOfHead(q: HeadReq, slots: seq<Slot>, was: DrmState, m: Commit, c: nat, n: nat)
    requires Sized(slots, was, m) && n <= |slots| && |q.layers| == LAYER_MAX
    ensures var r := HeadAfter(q, slots, was, m, c, n);
            && |r.layers| == LAYER_MAX
            && (forall l: nat :: l < LAYER_MAX ==> r.layers[l] == LayerAfter(q.layers[l], slots, was, m, c, l, n))
            && r.modeSet == q.modeSet && r.activeChanged == q.activeChanged
            && r.displaysChanged == q.displaysChanged && r.modeChanged == q.modeChanged
  {
    if n > 0 {
      LayerOfHead(q, slots, was, m, c, n - 1);
    }
  }

  lemma {:induction false} LayerByEffect(
      q: LayerReq, slots: seq<Slot>, was: DrmState, m: Commit, c: nat, l: nat, n: nat)
    requires Proper(slots, was, m) && n <= |slots|
    ensures var r, e := LayerAfter(q, slots, was, m, c, l, n), EffectOn(slots, was, m, c, Layer(l), n);
            && (e.Untouched? ==> r == q)
            && (e.Cleared? ==> r == DisabledLayer())
            && (e.Filled? ==> e.p < |slots|
                              && (r == UpdatedLayer(q.config, m.proposed.planes[e.p])
                                  || r == UpdatedLayer(NO_LAYER, m.proposed.planes[e.p])))
  {
    if n > 0 {
      LayerByEffect(q, slots, was, m, c, l, n - 1);
      FilledBy(slots, was, m, c, Layer(l), n - 1);
      var here := At(slots, m.proposed, n - 1, c, Layer(l));
    }
  }

  /** One layer over one commit: from a head that holds what was asked for, applying
  the marked fields gives what is asked for now, exactly when no plane entered the
  layer's slot before the plane that left it was checked. */
  lemma LayerExact(hw: LayerConfig, slots: seq<Slot>, was: DrmState, m: Commit, c: nat, l: nat)
    requires Proper(slots, was, m) && hw == WantedLayer(slots, was, c, l)
    ensures var r := LayerAfter(LayerReq(hw, NONE_CHANGED), slots, was, m, c, l, |slots|);
            && ApplyLayer(hw, r) == r.config
            && (r.config == WantedLayer(slots, m.proposed, c, l) <==> !Crossed(slots, was, m, c, Layer(l)))
  {
    var k := Layer(l);
    LayerByEffect(LayerReq(hw, NONE_CHANGED), slots, was, m, c, l, |slots|);
    SlotOutcome(slots, was, m, c, k);
    var e := EffectOn(slots, was, m, c, k, |slots|);
    if e.Filled? {
      FilledBy(slots, was, m, c, k, |slots|);
      DeltaIsFull(hw, m.proposed.planes[e.p]);
      OccupantIs(slots, m.proposed, c, k, e.p);
    }
  }

  /** The effect of a commit on a slot, against who occupies it afterwards. */
  lemma SlotOutcome(slots: seq<Slot>, was: DrmState, m: Commit, c: nat, k: Slot)
    requires Proper(slots, was, m)
    ensures var e, now := EffectOn(slots, was, m, c, k, |slots|), Occupant(slots, m.proposed, c, k, |slots|);
            && (Crossed(slots, was, m, c, k) ==> e.Cleared? && now.Some? && m.proposed.planes[now.value].fb.Some?)
            && (!Crossed(slots, was, m, c, k) && e.Cleared? ==> now.None? || m.proposed.planes[now.value].fb.None?)
            && (e.Untouched? ==> now == Occupant(slots, was, c, k, |slots|)
                                 && (now.Some? ==> m.proposed.planes[now.value] == was.planes[now.value]))
  {
    if b: nat, a: nat :| Crossing(slots, was, m, c, k, b, a) {
      CrossedCleared(slots, was, m, c, k, b, a);
    } else if b: nat :| At(slots, m.proposed, b, c, k) && m.planesIn[b] {
      OccupantIs(slots, m.proposed, c, k, b);
      TouchShows(slots, was, m, c, k, b, |slots|);
      if m.proposed.planes[b].fb.Some? {
        FillerWins(slots, was, m, c, k, b);
      }
    } else {
      NoFiller(slots, was, m, c, k);
    }
  }

  // ------------------------------------------------------------------------- cursor

  function CursorAfter(q: CursorReq, slots: seq<Slot>, was: DrmState, m: Commit, c: nat, n: nat): (r: CursorReq)
    requires Sized(slots, was, m) && n <= |slots|
  {
    if n == 0 then q
    else
      var before := CursorAfter(q, slots, was, m, c, n - 1);
      if !m.planesIn[n - 1] || !slots[n - 1].Cursor? then before
      else if Leaves(was.planes[n - 1], m.proposed.planes[n - 1], c) then DisabledCursor(before)
      else if Fills(m.proposed.planes[n - 1], c) then UpdatedCursor(before, m.proposed.planes[n - 1])
      else before
  }

  lemma {:induction false} CursorOfHead(q: HeadReq, slots: seq<Slot>, was: DrmState, m: Commit, c: nat, n: nat)
    requires Sized(slots, was, m) && n <= |slots|
    ensures HeadAfter(q, slots, was, m, c, n).cursor == CursorAfter(q.cursor, slots, was, m, c, n)
  {
    if n > 0 {
      CursorOfHead(q, slots, was, m, c, n - 1);
    }
  }

  /** The cursor plane has been updated from a request that had no surface. */
  predicate CursorSet(r: CursorReq, ps: PlaneState) {
    if ps.fb.None? then r.surface.None? && r.surfaceChanged
    else r == CursorReq(ps.fb, ps.look, S16(ps.crtcX), S16(ps.crtcY), true, true)
  }

  lemma {:induction false} CursorByEffect(slots: seq<Slot>, was: DrmState, m: Commit, c: nat, n: nat)
    requires Proper(slots, was, m) && n <= |slots|
    ensures var r, e := CursorAfter(NO_CURSOR, slots, was, m, c, n), EffectOn(slots, was, m, c, Cursor, n);
            && (e.Untouched? ==> r == NO_CURSOR)
            && (e.Cleared? ==> r.surface.None? && r.surfaceChanged)
            && (e.Filled? ==> e.p < |slots| && CursorSet(r, m.proposed.planes[e.p]))
  {
    if n > 0 {
      CursorByEffect(slots, was, m, c, n - 1);
      FilledBy(slots, was, m, c, Cursor, n - 1);
      var here := At(slots, m.proposed, n - 1, c, Cursor);
    }
  }

  /** The cursor over one commit, though its last request is not carried over. */
  lemma CursorExact(hw: HwCursor, slots: seq<Slot>, was: DrmState, m: Commit, c: nat)
    requires Proper(slots, was, m) && CursorAsWanted(hw, slots, was, c)
    ensures var r := CursorAfter(NO_CURSOR, slots, was, m, c, |slots|);
            CursorAsWanted(ApplyCursor(hw, r), slots, m.proposed, c) <==> !Crossed(slots, was, m, c, Cursor)
  {
    CursorByEffect(slots, was, m, c, |slots|);
    SlotOutcome(slots, was, m, c, Cursor);
    var e := EffectOn(slots, was, m, c, Cursor, |slots|);
    if e.Filled? {
      FilledBy(slots, was, m, c, Cursor, |slots|);
      OccupantIs(slots, m.proposed, c, Cursor, e.p);
    }
  }

  /** A commit that takes the SET_MODE path programs the request's cursor as it stands.
  That is the cursor asked for exactly when a plane of the commit holds it, uncrossed,
  or none with a surface is asked for: a cursor whose plane is not in the commit is
  turned off. */
  lemma SetModeCursor(slots: seq<Slot>, was: DrmState, m: Commit, c: nat)
    requires Proper(slots, was, m)
    ensures var r := CursorAfter(NO_CURSOR, slots, was, m, c, |slots|);
            var now := Occupant(slots, m.proposed, c, Cursor, |slots|);
            CursorAsWanted(HwCursor(r.surface, r.look, r.dstX, r.dstY), slots, m.proposed, c) <==>
              now.None? || m.proposed.planes[now.value].fb.None?
              || (m.planesIn[now.value] && !Crossed(slots, was, m, c, Cursor))
  {
    CursorByEffect(slots, was, m, c, |slots|);
    SlotOutcome(slots, was, m, c, Cursor);
    FilledBy(slots, was, m, c, Cursor, |slots|);
    var e := EffectOn(slots, was, m, c, Cursor, |slots|);
    var now := Occupant(slots, m.proposed, c, Cursor, |slots|);
    if e.Filled? {
      OccupantIs(slots, m.proposed, c, Cursor, e.p);
    }
    if now.Some? && m.planesIn[now.value] {
      TouchShows(slots, was, m, c, Cursor, now.value, |slots|);
    }
  }

  // -------------------------------------------------------------------- whole heads

  lemma {:induction false} RoutedAll(cs: seq<ConnectorState>, held: seq<bool>, c: nat, n: nat)
    requires n <= |cs| == |held| && forall j :: 0 <= j < |cs| && cs[j].crtc == Some(c) ==> held[j]
    ensures RoutedIn(cs, held, c, n) == Routed(cs, c, n)
  {
    if n > 0 {
      RoutedAll(cs, held, c, n - 1);
    }
  }

  /** The request kept for a head holds all that the DRM state asks for, cursor apart. */
  predicate ReqInSync(slots: seq<Slot>, d: DrmState, q: HeadReq, c: nat)
    requires |d.planes| == |slots| && c < |d.crtcs|
  {
    && |q.layers| == LAYER_MAX && q.modeSet == WantedModeSet(d, c)
    && forall l: nat :: l < LAYER_MAX ==> q.layers[l].config == WantedLayer(slots, d, c, l)
  }

  /** The head holds all that the DRM state asks for. */
  predicate HwInSync(slots: seq<Slot>, d: DrmState, hw: HwHead, c: nat)
    requires |d.planes| == |slots| && c < |d.crtcs|
  {
    && |hw.layers| == LAYER_MAX && hw.modeSet == WantedModeSet(d, c)
    && CursorAsWanted(hw.cursor, slots, d, c)
    && forall l: nat :: l < LAYER_MAX ==> hw.layers[l] == WantedLayer(slots, d, c, l)
  }

  ghost predicate LayersUncrossed(slots: seq<Slot>, was: DrmState, m: Commit, c: nat)
    requires Sized(slots, was, m)
  {
    forall l: nat :: l < LAYER_MAX ==> !Crossed(slots, was, m, c, Layer(l))
  }

  /** The cursor plane is in the commit if a cursor with a surface is asked for. */
  predicate CursorHeld(slots: seq<Slot>, m: Commit, c: nat)
    requires |m.proposed.planes| == |slots| == |m.planesIn|
  {
    var now := Occupant(slots, m.proposed, c, Cursor, |slots|);
    now.Some? && m.proposed.planes[now.value].fb.Some? ==> m.planesIn[now.value]
  }

  lemma ModeSetExact(q: HeadReq, slots: seq<Slot>, was: DrmState, m: Commit, c: nat)
    requires Proper(slots, was, m) && c < |was.crtcs| && m.crtcsIn[c] && ReqInSync(slots, was, q, c)
    ensures var r := HeadCommitted(q, slots, was, m, c);
            && |r.layers| == LAYER_MAX && r.modeSet == WantedModeSet(m.proposed, c)
            && (!r.activeChanged ==> r.modeSet.active == q.modeSet.active)
            && (!r.displaysChanged ==> r.modeSet.displays == q.modeSet.displays)
            && (!r.modeChanged ==> r.modeSet.mode == q.modeSet.mode)
  {
    LayerOfHead(Duplicated(q), slots, was, m, c, |slots|);
    assert CrtcProper(was, m, c);
    if m.changes[c].connectors {
      RoutedAll(m.proposed.connectors, m.connectorsIn, c, |m.proposed.connectors|);
    }
  }

  lemma LayersExact(q: HeadReq, slots: seq<Slot>, was: DrmState, m: Commit, c: nat, l: nat)
    requires Proper(slots, was, m) && c < |was.crtcs| && ReqInSync(slots, was, q, c) && l < LAYER_MAX
    ensures var r := HeadCommitted(q, slots, was, m, c);
            && |r.layers| == LAYER_MAX
            && ApplyLayer(q.layers[l].config, r.layers[l]) == r.layers[l].config
            && (r.layers[l].config == WantedLayer(slots, m.proposed, c, l) <==> !Crossed(slots, was, m, c, Layer(l)))
  {
    LayerOfHead(Duplicated(q), slots, was, m, c, |slots|);
    LayerExact(q.layers[l].config, slots, was, m, c, l);
  }

  /** The request of a commit is in step with the proposed state exactly when no layer
  of it was crossed. */
  lemma ReqExact(q: HeadReq, slots: seq<Slot>, was: DrmState, m: Commit, c: nat)
    requires Proper(slots, was, m) && c < |was.crtcs| && m.crtcsIn[c] && ReqInSync(slots, was, q, c)
    ensures ReqInSync(slots, m.proposed, HeadCommitted(q, slots, was, m, c), c) <==> LayersUncrossed(slots, was, m, c)
  {
    var r := HeadCommitted(q, slots, was, m, c);
    ModeSetExact(q, slots, was, m, c);
    forall l: nat | l < LAYER_MAX
      ensures r.layers[l].config == WantedLayer(slots, m.proposed, c, l) <==> !Crossed(slots, was, m, c, Layer(l))
    {
      LayersExact(q, slots, was, m, c, l);
    }
  }

  /** A head to which only the marked fields are applied is in step exactly when no slot
  of it was crossed. */
  lemma FlipExact(q: HeadReq, hw: HwHead, slots: seq<Slot>, was: DrmState, m: Commit, c: nat)
    requires Proper(slots, was, m) && c < |was.crtcs| && m.crtcsIn[c]
    requires ReqInSync(slots, was, q, c) && HwInSync(slots, was, hw, c)
    ensures var r := HeadCommitted(q, slots, was, m, c);
            && |r.layers| == |hw.layers|
            && (HwInSync(slots, m.proposed, ApplyHead(hw, r), c) <==>
                  LayersUncrossed(slots, was, m, c) && !Crossed(slots, was, m, c, Cursor))
  {
    var r := HeadCommitted(q, slots, was, m, c);
    ModeSetExact(q, slots, was, m, c);
    CursorOfHead(Duplicated(q), slots, was, m, c, |slots|);
    CursorExact(hw.cursor, slots, was, m, c);
    forall l: nat | l < LAYER_MAX
      ensures ApplyHead(hw, r).layers[l] == WantedLayer(slots, m.proposed, c, l)
              <==> !Crossed(slots, was, m, c, Layer(l))
    {
      LayersExact(q, slots, was, m, c, l);
    }
  }

  /** A head programmed by SET_MODE, which applies everything, is in step exactly when no
  slot of it was crossed and the cursor plane, if a cursor is asked for, is in the
  commit. */
  lemma SetModeExact(q: HeadReq, slots: seq<Slot>, was: DrmState, m: Commit, c: nat)
    requires Proper(slots, was, m) && c < |was.crtcs| && m.crtcsIn[c] && ReqInSync(slots, was, q, c)
    ensures HwInSync(slots, m.proposed, SetModeHead(HeadCommitted(q, slots, was, m, c)), c) <==>
              && LayersUncrossed(slots, was, m, c) && !Crossed(slots, was, m, c, Cursor)
              && CursorHeld(slots, m, c)
  {
    var r := HeadCommitted(q, slots, was, m, c);
    ModeSetExact(q, slots, was, m, c);
    CursorOfHead(Duplicated(q), slots, was, m, c, |slots|);
    SetModeCursor(slots, was, m, c);
    SlotOutcome(slots, was, m, c, Cursor);
    forall l: nat | l < LAYER_MAX
      ensures SetModeHead(r).layers[l] == WantedLayer(slots, m.proposed, c, l)
              <==> !Crossed(slots, was, m, c, Layer(l))
    {
      LayersExact(q, slots, was, m, c, l);
    }
  }

  /** A head that is not in the commit is asked for nothing new. */
  lemma HeadOutside(slots: seq<Slot>, was: DrmState, m: Commit, c: nat)
    requires Proper(slots, was, m) && c < |was.crtcs| && !m.crtcsIn[c]
    ensures WantedModeSet(m.proposed, c) == WantedModeSet(was, c)
    ensures forall l: nat :: l < LAYER_MAX ==> WantedLayer(slots, m.proposed, c, l) == WantedLayer(slots, was, c, l)
    ensures forall hw: HwCursor :: CursorAsWanted(hw, slots, was, c) ==> CursorAsWanted(hw, slots, m.proposed, c)
  {
    assert CrtcProper(was, m, c);
    SlotOutside(slots, was, m, c, Cursor);
    forall l: nat | l < LAYER_MAX ensures WantedLayer(slots, m.proposed, c, l) == WantedLayer(slots, was, c, l) {
      SlotOutside(slots, was, m, c, Layer(l));
    }
  }

  lemma SlotOutside(slots: seq<Slot>, was: DrmState, m: Commit, c: nat, k: Slot)
    requires Proper(slots, was, m) && c < |was.crtcs| && !m.crtcsIn[c]
    ensures var now := Occupant(slots, m.proposed, c, k, |slots|);
            && now == Occupant(slots, was, c, k, |slots|)
            && (now.Some? ==> m.proposed.planes[now.value] == was.planes[now.value])
  {
    NoneTouch(slots, was, m, c, k, |slots|);
    SlotOutcome(slots, was, m, c, k);
  }

  // --------------------------------------------------------------------------- runs

  /** The DRM state, the request kept for each CRTC and the heads, None being off. */
  datatype Device = Device(drm: DrmState, reqs: seq<HeadReq>, hw: seq<Option<HwHead>>)

  predicate PlaneAccepted(slots: seq<Slot>, m: Commit, syncpts: bool, p: nat)
    requires p < |slots| == |m.planesIn| == |m.proposed.planes|
  {
    var now := m.proposed.planes[p];
    m.planesIn[p] && now.crtc.Some? && now.crtc.value < |m.crtcsIn| && m.crtcsIn[now.crtc.value] ==>
      !Refused(slots[p], now, syncpts)
  }

  /** Every display to attach has an encoder, and there is room for all of them. */
  predicate DisplaysAccepted(m: Commit, c: nat, n: nat)
    requires c < |m.crtcsIn| == |m.changes| && n <= |m.connectorsIn| == |m.proposed.connectors|
  {
    m.crtcsIn[c] && m.changes[c].connectors ==>
      && (forall j :: 0 <= j < n && m.connectorsIn[j] && m.proposed.connectors[j].crtc == Some(c) ==>
            m.proposed.connectors[j].display.Some?)
      && |RoutedIn(m.proposed.connectors, m.connectorsIn, c, n)| <= MAX_CLONE_DISPLAYS
  }

  /** nv_drm_atomic_check succeeds. */
  predicate Accepted(slots: seq<Slot>, was: DrmState, m: Commit, syncpts: bool)
    requires Sized(slots, was, m)
  {
    && (forall p :: 0 <= p < |slots| ==> PlaneAccepted(slots, m, syncpts, p))
    && (forall c :: 0 <= c < |m.crtcsIn| ==> DisplaysAccepted(m, c, |m.connectorsIn|))
  }

  predicate Whole(slots: seq<Slot>, d: Device) {
    && Fits(slots, d.drm) && |d.reqs| == |d.hw| == |d.drm.crtcs|
    && forall c :: 0 <= c < |d.reqs| ==> |d.reqs[c].layers| == LAYER_MAX
  }

  /** The requests of a commit, those of CRTCs that are not in it included. */
  function Requested(d: Device, slots: seq<Slot>, m: Commit): (qs: seq<HeadReq>)
    requires Whole(slots, d) && Sized(slots, d.drm, m)
  {
    seq(|d.reqs|, c requires 0 <= c < |d.reqs| =>
      if m.crtcsIn[c] then HeadCommitted(d.reqs[c], slots, d.drm, m, c) else d.reqs[c])
  }

  /** One head that needs SET_MODE makes the whole commit take that path. */
  predicate TakesSetMode(qs: seq<HeadReq>, held: seq<bool>)
    requires |qs| == |held|
  {
    exists c :: 0 <= c < |qs| && held[c] && NeedsSetMode(qs[c])
  }

  /** ApplyModeSetConfig. */
  function ApplyRequest(hw: seq<Option<HwHead>>, qs: seq<HeadReq>, held: seq<bool>): (hw': seq<Option<HwHead>>)
    requires |hw| == |qs| == |held|
  {
    seq(|hw|, c requires 0 <= c < |hw| => if held[c] then Programmed(hw[c], qs[c], TakesSetMode(qs, held)) else hw[c])
  }

  /** A commit: refused and discarded, or accepted and applied. */
  function Committed(d: Device, slots: seq<Slot>, m: Commit, syncpts: bool): (d': Device)
    requires Whole(slots, d) && Sized(slots, d.drm, m)
  {
    if !Accepted(slots, d.drm, m, syncpts) then d
    else
      var qs := Requested(d, slots, m);
      Device(m.proposed, qs, ApplyRequest(d.hw, qs, m.crtcsIn))
  }

  /** A head is in step: its request is, and it holds all that is asked for if it is to
  be shown, and is off if not. */
  predicate HeadInSync(slots: seq<Slot>, d: DrmState, q: HeadReq, hw: Option<HwHead>, c: nat)
    requires |d.planes| == |slots| && c < |d.crtcs|
  {
    && ReqInSync(slots, d, q, c)
    && (hw.Some? <==> Shown(WantedModeSet(d, c)))
    && (hw.Some? ==> HwInSync(slots, d, hw.value, c))
  }

  predicate InSync(slots: seq<Slot>, d: Device) {
    && Whole(slots, d)
    && forall c :: 0 <= c < |d.reqs| ==> HeadInSync(slots, d.drm, d.reqs[c], d.hw[c], c)
  }

  /** With every plane off, nothing routed and everything zero, all is in step. */
  lemma StartInSync(slots: seq<Slot>, d: Device)
    requires Whole(slots, d)
    requires forall p :: 0 <= p < |d.drm.planes| ==> d.drm.planes[p].crtc.None?
    requires forall k :: k in d.drm.connectors ==> k.crtc.None?
    requires forall c :: 0 <= c < |d.reqs| ==>
               && d.drm.crtcs[c] == CrtcState(false, 0) && d.hw[c].None?
               && d.reqs[c].modeSet == ModeSet(false, [], 0)
               && forall l :: 0 <= l < LAYER_MAX ==> d.reqs[c].layers[l].config == NO_LAYER
    ensures InSync(slots, d)
  {
    forall c | 0 <= c < |d.reqs| ensures HeadInSync(slots, d.drm, d.reqs[c], d.hw[c], c) {
      NoneRouted(d.drm.connectors, c, |d.drm.connectors|);
    }
  }

  lemma {:induction false} NoneRouted(cs: seq<ConnectorState>, c: nat, n: nat)
    requires n <= |cs| && forall k :: k in cs ==> k.crtc.None?
    ensures Routed(cs, c, n) == []
  {
    if n > 0 {
      assert cs[n - 1] in cs;
      NoneRouted(cs, c, n - 1);
    }
  }

  /** What keeps a head of a commit in step: no plane enters a layer before the plane
  that leaves it is checked; and if the head is to be shown, the same for the cursor,
  and on the SET_MODE path the cursor plane is in the commit if there is a cursor. */
  ghost predicate Sound(slots: seq<Slot>, was: DrmState, m: Commit, c: nat, setMode: bool)
    requires Sized(slots, was, m) && c < |m.proposed.crtcs|
  {
    && LayersUncrossed(slots, was, m, c)
    && (Shown(WantedModeSet(m.proposed, c)) ==>
          !Crossed(slots, was, m, c, Cursor) && (setMode ==> CursorHeld(slots, m, c)))
  }

  /** A head is in step after a commit exactly when the commit is sound for it. */
  lemma HeadExact(q: HeadReq, hw: Option<HwHead>, slots: seq<Slot>, was: DrmState, m: Commit, c: nat, setMode: bool)
    requires Proper(slots, was, m) && c < |was.crtcs| && m.crtcsIn[c] && HeadInSync(slots, was, q, hw, c)
    requires NeedsSetMode(HeadCommitted(q, slots, was, m, c)) ==> setMode
    ensures var r := HeadCommitted(q, slots, was, m, c);
            HeadInSync(slots, m.proposed, r, Programmed(hw, r, setMode), c) <==> Sound(slots, was, m, c, setMode)
  {
    var r := HeadCommitted(q, slots, was, m, c);
    ModeSetExact(q, slots, was, m, c);
    ReqExact(q, slots, was, m, c);
    if Shown(r.modeSet) {
      if setMode {
        SetModeExact(q, slots, was, m, c);
      } else {
        assert Shown(q.modeSet);
        FlipExact(q, hw.value, slots, was, m, c);
      }
    }
  }

  /** A commit is sound for every head in it, with the path it takes. */
  ghost predicate SoundCommit(slots: seq<Slot>, d: Device, m: Commit)
    requires Whole(slots, d) && Sized(slots, d.drm, m)
  {
    var setMode := TakesSetMode(Requested(d, slots, m), m.crtcsIn);
    forall c :: 0 <= c < |m.crtcsIn| && m.crtcsIn[c] ==> Sound(slots, d.drm, m, c, setMode)
  }

  lemma StaysWhole(slots: seq<Slot>, d: Device, m: Commit, syncpts: bool)
    requires Whole(slots, d) && Sized(slots, d.drm, m)
    ensures Whole(slots, Committed(d, slots, m, syncpts))
  {
    forall c | 0 <= c < |d.reqs| ensures |Requested(d, slots, m)[c].layers| == LAYER_MAX {
      LayerOfHead(Duplicated(d.reqs[c]), slots, d.drm, m, c, |slots|);
    }
  }

  lemma HeadStepExact(slots: seq<Slot>, d: Device, m: Commit, syncpts: bool, c: nat)
    requires InSync(slots, d) && Proper(slots, d.drm, m) && Accepted(slots, d.drm, m, syncpts) && c < |d.reqs|
    ensures var d' := Committed(d, slots, m, syncpts);
            && |d'.reqs| == |d'.hw| == |d.reqs|
            && (HeadInSync(slots, d'.drm, d'.reqs[c], d'.hw[c], c) <==>
                  (m.crtcsIn[c] ==> Sound(slots, d.drm, m, c, TakesSetMode(Requested(d, slots, m), m.crtcsIn))))
  {
    var qs := Requested(d, slots, m);
    if m.crtcsIn[c] {
      assert NeedsSetMode(qs[c]) ==> TakesSetMode(qs, m.crtcsIn);
      HeadExact(d.reqs[c], d.hw[c], slots, d.drm, m, c, TakesSetMode(qs, m.crtcsIn));
    } else {
      HeadOutside(slots, d.drm, m, c);
    }
  }

  /** From a device in step, a commit leaves all heads in step exactly when it is refused
  or sound. */
  lemma CommitExact(slots: seq<Slot>, d: Device, m: Commit, syncpts: bool)
    requires InSync(slots, d) && Proper(slots, d.drm, m)
    ensures InSync(slots, Committed(d, slots, m, syncpts)) <==>
              !Accepted(slots, d.drm, m, syncpts) || SoundCommit(slots, d, m)
  {
    var d' := Committed(d, slots, m, syncpts);
    StaysWhole(slots, d, m, syncpts);
    if Accepted(slots, d.drm, m, syncpts) {
      var setMode := TakesSetMode(Requested(d, slots, m), m.crtcsIn);
      forall c | 0 <= c < |d.reqs|
        ensures HeadInSync(slots, d'.drm, d'.reqs[c], d'.hw[c], c) <==>
                  (m.crtcsIn[c] ==> Sound(slots, d.drm, m, c, setMode))
      {
        HeadStepExact(slots, d, m, syncpts, c);
      }
    }
  }

  /** ms is a run of commits that the DRM core may make. */
  ghost predicate ProperRun(slots: seq<Slot>, d: Device, ms: seq<Commit>, syncpts: bool)
    decreases |ms|
  {
    ms == []
    || (&& Whole(slots, d) && Proper(slots, d.drm, ms[0])
        && ProperRun(slots, Committed(d, slots, ms[0], syncpts), ms[1..], syncpts))
  }

  ghost predicate SoundRun(slots: seq<Slot>, d: Device, ms: seq<Commit>, syncpts: bool)
    requires ProperRun(slots, d, ms, syncpts)
    decreases |ms|
  {
    ms == []
    || (&& (Accepted(slots, d.drm, ms[0], syncpts) ==> SoundCommit(slots, d, ms[0]))
        && SoundRun(slots, Committed(d, slots, ms[0], syncpts), ms[1..], syncpts))
  }

  /** In step before the run and after each of its commits. */
  predicate InSyncThroughout(slots: seq<Slot>, d: Device, ms: seq<Commit>, syncpts: bool)
    decreases |ms|
  {
    && InSync(slots, d)
    && (ms == []
        || (&& Sized(slots, d.drm, ms[0])
            && InSyncThroughout(slots, Committed(d, slots, ms[0], syncpts), ms[1..], syncpts)))
  }

  /** Over any run of commits, accepted or refused, flipped or set by SET_MODE, every
  shown head holds every layer's surface and geometry, the cursor, the mode and the
  displays that the DRM state asks for, and every other head is off, after every
  commit, if and only if every accepted commit is sound. */
  lemma {:induction false} AlwaysInSyncIff(slots: seq<Slot>, d: Device, ms: seq<Commit>, syncpts: bool)
    requires InSync(slots, d) && ProperRun(slots, d, ms, syncpts)
    ensures InSyncThroughout(slots, d, ms, syncpts) <==> SoundRun(slots, d, ms, syncpts)
    decreases |ms|
  {
    if ms != [] {
      CommitExact(slots, d, ms[0], syncpts);
      if InSync(slots, Committed(d, slots, ms[0], syncpts)) {
        AlwaysInSyncIff(slots, Committed(d, slots, ms[0], syncpts), ms[1..], syncpts);
      }
    }
  }

  /** On a device in step, a shown head holds each plane that is on it, in the plane's
  own terms. */
  lemma ShownAsAsked(slots: seq<Slot>, d: Device, c: nat, p: nat, l: nat, x: nat, y: nat, w: nat, h: nat)
    requires InSync(slots, d) && Exclusive(slots, d.drm) && c < |d.reqs| && l < LAYER_MAX
    requires d.drm.crtcs[c].active && Routed(d.drm.connectors, c, |d.drm.connectors|) != []
    requires At(slots, d.drm, p, c, Layer(l)) && Source(d.drm.planes[p], x, y, w, h)
    ensures d.hw[c].Some? && |d.hw[c].value.layers| == LAYER_MAX
    ensures d.drm.planes[p].fb.Some? ==> HoldsPlane(d.hw[c].value.layers[l], d.drm.planes[p], x, y, w, h)
    ensures d.drm.planes[p].fb.None? ==> d.hw[c].value.layers[l].surface.None?
  {
    assert HeadInSync(slots, d.drm, d.reqs[c], d.hw[c], c);
    OccupantIs(slots, d.drm, c, Layer(l), p);
    LayerAsAsked(NO_LAYER, d.drm.planes[p], x, y, w, h);
  }

  /** The same for its cursor. */
  lemma ShownCursorAsAsked(slots: seq<Slot>, d: Device, c: nat, p: nat)
    requires InSync(slots, d) && Exclusive(slots, d.drm) && c < |d.reqs|
    requires d.drm.crtcs[c].active && Routed(d.drm.connectors, c, |d.drm.connectors|) != []
    requires At(slots, d.drm, p, c, Cursor)
    ensures var ps := d.drm.planes[p];
            && d.hw[c].Some? && d.hw[c].value.cursor.surface == ps.fb
            && (ps.fb.Some? && -0x8000 <= ps.crtcX < 0x8000 ==> d.hw[c].value.cursor.x == ps.crtcX)
            && (ps.fb.Some? && -0x8000 <= ps.crtcY < 0x8000 ==> d.hw[c].value.cursor.y == ps.crtcY)
  {
    assert HeadInSync(slots, d.drm, d.reqs[c], d.hw[c], c);
    OccupantIs(slots, d.drm, c, Cursor, p);
  }

  /** The displays of a CRTC are those of the connectors routed to it, in their order: each
  such connector's display comes after those of the connectors before it, ... */
  lemma {:induction false} RoutedPlace(cs: seq<ConnectorState>, c: nat, k: nat, n: nat)
    requires k < n <= |cs| && cs[k].crtc == Some(c) && cs[k].display.Some?
    ensures Routed(cs, c, k) < Routed(cs, c, n)
    ensures Routed(cs, c, n)[|Routed(cs, c, k)|] == cs[k].display.value
  {
    if k < n - 1 {
      RoutedPlace(cs, c, k, n - 1);
    }
  }

  /** ... and there are no others. */
  lemma {:induction false} RoutedFrom(cs: seq<ConnectorState>, c: nat, n: nat, i: nat) returns (k: nat)
    requires n <= |cs| && i < |Routed(cs, c, n)|
    ensures k < n && cs[k].crtc == Some(c) && cs[k].display == Some(Routed(cs, c, n)[i]) && |Routed(cs, c, k)| == i
  {
    if i < |Routed(cs, c, n - 1)| {
      k := RoutedFrom(cs, c, n - 1, i);
    } else {
      k := n - 1;
    }
  }

  /** On a device in step, a head is lit if and only if its CRTC is active and a connector
  with a display is routed to it, and it then has the CRTC's mode and those displays. */
  lemma LitIff(slots: seq<Slot>, d: Device, c: nat)
    requires InSync(slots, d) && c < |d.reqs|
    ensures d.hw[c].Some? <==>
              && d.drm.crtcs[c].active
              && exists k :: 0 <= k < |d.drm.connectors| &&
                             d.drm.connectors[k].crtc == Some(c) && d.drm.connectors[k].display.Some?
    ensures d.hw[c].Some? ==>
              && d.hw[c].value.modeSet.mode == d.drm.crtcs[c].mode
              && d.hw[c].value.modeSet.displays == Routed(d.drm.connectors, c, |d.drm.connectors|)
  {
    var cs := d.drm.connectors;
    assert HeadInSync(slots, d.drm, d.reqs[c], d.hw[c], c);
    if Routed(cs, c, |cs|) != [] {
      var k := RoutedFrom(cs, c, |cs|, 0);
    }
    forall k | 0 <= k < |cs| && cs[k].crtc == Some(c) && cs[k].display.Some? ensures Routed(cs, c, |cs|) != [] {
      RoutedPlace(cs, c, k, |cs|);
    }
  }

  /** No layer on a CRTC of the commit has a framebuffer and a fence, or there are syncpoints. */
  predicate FencesSupported(slots: seq<Slot>, m: Commit, syncpts: bool)
    requires |slots| == |m.planesIn| == |m.proposed.planes|
  {
    forall p :: 0 <= p < |slots| && m.planesIn[p] && slots[p] != Cursor ==>
      var now := m.proposed.planes[p];
      now.crtc.Some? && now.crtc.value < |m.crtcsIn| && m.crtcsIn[now.crtc.value] && now.fb.Some?
      ==> !now.fenced || syncpts
  }

  /** Where connectors change, all have a display and there are at most 16. */
  predicate ConnectorsFit(m: Commit)
    requires |m.crtcsIn| == |m.changes| && |m.connectorsIn| == |m.proposed.connectors|
  {
    forall c :: 0 <= c < |m.crtcsIn| && m.crtcsIn[c] && m.changes[c].connectors ==>
      && |RoutedIn(m.proposed.connectors, m.connectorsIn, c, |m.connectorsIn|)| <= 16
      && forall j :: 0 <= j < |m.connectorsIn| && m.connectorsIn[j] ==>
           m.proposed.connectors[j].crtc == Some(c) ==> m.proposed.connectors[j].display.Some?
  }

  /** These decide whether a commit is accepted. */
  lemma AcceptedIff(slots: seq<Slot>, was: DrmState, m: Commit, syncpts: bool)
    requires Sized(slots, was, m)
    ensures Accepted(slots, was, m, syncpts) <==> FencesSupported(slots, m, syncpts) && ConnectorsFit(m)
  {
    if Accepted(slots, was, m, syncpts) {
      assert FencesSupported(slots, m, syncpts) by {
        assert forall p :: 0 <= p < |slots| && m.planesIn[p] ==> PlaneAccepted(slots, m, syncpts, p);
      }
      assert ConnectorsFit(m) by {
        assert forall c :: 0 <= c < |m.crtcsIn| && m.crtcsIn[c] ==> DisplaysAccepted(m, c, |m.connectorsIn|);
      }
    }
  }

  // --------------------------------------------------------- planes of their own head

  /** A plane is only ever on its own head, which has no other plane for the slot. */
  predicate OwnHeads(slots: seq<Slot>, home: seq<nat>, d: DrmState) {
    && |slots| == |home| == |d.planes|
    && (forall p :: 0 <= p < |slots| ==> d.planes[p].crtc.None? || d.planes[p].crtc == Some(home[p]))
    && (forall p, q :: 0 <= p < q < |slots| && home[p] == home[q] ==> slots[p] != slots[q])
  }

  /** The planes that the driver creates never cross, whatever the order of checks. */
  lemma OwnHeadsNeverCross(slots: seq<Slot>, home: seq<nat>, was: DrmState, m: Commit, c: nat, k: Slot)
    requires Sized(slots, was, m) && OwnHeads(slots, home, was) && OwnHeads(slots, home, m.proposed)
    ensures !Crossed(slots, was, m, c, k)
  {
    if b: nat, a: nat :| Crossing(slots, was, m, c, k, b, a) {
      assert false;
    }
  }

  /** Every shown head of a SET_MODE commit that is to have a cursor has its plane in it. */
  predicate CursorsHeld(slots: seq<Slot>, d: Device, m: Commit)
    requires Whole(slots, d) && Sized(slots, d.drm, m)
  {
    TakesSetMode(Requested(d, slots, m), m.crtcsIn) ==>
      forall c :: 0 <= c < |m.crtcsIn| && m.crtcsIn[c] && Shown(WantedModeSet(m.proposed, c)) ==>
        CursorHeld(slots, m, c)
  }

  ghost predicate OwnRun(slots: seq<Slot>, home: seq<nat>, d: Device, ms: seq<Commit>, syncpts: bool)
    requires ProperRun(slots, d, ms, syncpts)
    decreases |ms|
  {
    ms == []
    || (&& OwnHeads(slots, home, d.drm) && OwnHeads(slots, home, ms[0].proposed)
        && OwnRun(slots, home, Committed(d, slots, ms[0], syncpts), ms[1..], syncpts))
  }

  ghost predicate CursorsHeldRun(slots: seq<Slot>, d: Device, ms: seq<Commit>, syncpts: bool)
    requires ProperRun(slots, d, ms, syncpts)
    decreases |ms|
  {
    ms == []
    || (&& (Accepted(slots, d.drm, ms[0], syncpts) ==> CursorsHeld(slots, d, ms[0]))
        && CursorsHeldRun(slots, Committed(d, slots, ms[0], syncpts), ms[1..], syncpts))
  }

  lemma OwnHeadsSound(slots: seq<Slot>, home: seq<nat>, d: Device, m: Commit)
    requires Whole(slots, d) && Sized(slots, d.drm, m)
    requires OwnHeads(slots, home, d.drm) && OwnHeads(slots, home, m.proposed)
    ensures SoundCommit(slots, d, m) <==> CursorsHeld(slots, d, m)
  {
    forall c: nat, k: Slot ensures !Crossed(slots, d.drm, m, c, k) {
      OwnHeadsNeverCross(slots, home, d.drm, m, c, k);
    }
  }

  /** So with the driver's own planes a run stays in step if and only if every SET_MODE
  commit of it holds the cursor planes of the heads it shows. */
  lemma {:induction false} OwnHeadsInSyncIff(
      slots: seq<Slot>, home: seq<nat>, d: Device, ms: seq<Commit>, syncpts: bool)
    requires InSync(slots, d) && ProperRun(slots, d, ms, syncpts) && OwnRun(slots, home, d, ms, syncpts)
    ensures InSyncThroughout(slots, d, ms, syncpts) <==> CursorsHeldRun(slots, d, ms, syncpts)
    decreases |ms|
  {
    if ms != [] {
      CommitExact(slots, d, ms[0], syncpts);
      OwnHeadsSound(slots, home, d, ms[0]);
      if InSync(slots, Committed(d, slots, ms[0], syncpts)) {
        OwnHeadsInSyncIff(slots, home, Committed(d, slots, ms[0], syncpts), ms[1..], syncpts);
      }
    }
  }

  lemma {:induction false} OnlyToucher(
      q: LayerReq, slots: seq<Slot>, was: DrmState, m: Commit, c: nat, l: nat, p: nat, n: nat)
    requires Sized(slots, was, m) && p < |slots| && n <= |slots|
    requires forall i: nat :: i < |slots| && i != p ==> !Touches(slots, was, m, c, Layer(l), i)
    ensures LayerAfter(q, slots, was, m, c, l, n)
         == if n <= p || !Touches(slots, was, m, c, Layer(l), p) then q
            else if Leaves(was.planes[p], m.proposed.planes[p], c) then DisabledLayer()
            else UpdatedLayer(q.config, m.proposed.planes[p])
  {
    if n > 0 {
      OnlyToucher(q, slots, was, m, c, l, p, n - 1);
      var here := Touches(slots, was, m, c, Layer(l), n - 1);
    }
  }

  /** Size and place of the primary layer, which only SET_MODE can change. */
  predicate SameView(g: LayerConfig, g': LayerConfig) {
    && g.srcW == g'.srcW && g.srcH == g'.srcH && g.dstX == g'.dstX && g.dstY == g'.dstY
    && g.dstW == g'.dstW && g.dstH == g'.dstH
  }

  /** The primary plane of a head is in the commit, on that head before or after. */
  predicate PrimaryIn(slots: seq<Slot>, was: DrmState, m: Commit, c: nat, p: nat)
    requires Sized(slots, was, m)
  {
    && p < |slots| && slots[p] == Layer(0) && m.planesIn[p]
    && (was.planes[p].crtc == Some(c) || m.proposed.planes[p].crtc == Some(c))
  }

  /** Whether the primary layer is without a surface before or after, or changes its view. */
  predicate ViewChanges(slots: seq<Slot>, was: DrmState, m: Commit, c: nat)
    requires Sized(slots, was, m)
  {
    var g, g' := WantedLayer(slots, was, c, 0), WantedLayer(slots, m.proposed, c, 0);
    g.surface.None? || g'.surface.None? || !SameView(g, g')
  }

  lemma PrimaryRequest(
      q: HeadReq, slots: seq<Slot>, home: seq<nat>, was: DrmState, m: Commit, c: nat, p: nat)
    requires Proper(slots, was, m) && c < |was.crtcs| && m.crtcsIn[c] && ReqInSync(slots, was, q, c)
    requires OwnHeads(slots, home, was) && OwnHeads(slots, home, m.proposed)
    requires p < |slots| && slots[p] == Layer(0) && home[p] == c
    ensures |HeadCommitted(q, slots, was, m, c).layers| == LAYER_MAX
    ensures var f := HeadCommitted(q, slots, was, m, c).layers[0].flags;
            f.srcWH || f.dstXY || f.dstWH <==> PrimaryIn(slots, was, m, c, p) && ViewChanges(slots, was, m, c)
  {
    LayerOfHead(Duplicated(q), slots, was, m, c, |slots|);
    forall i: nat | i < |slots| && i != p ensures !Touches(slots, was, m, c, Layer(0), i) {
    }
    OnlyToucher(LayerReq(q.layers[0].config, NONE_CHANGED), slots, was, m, c, 0, p, |slots|);
    if At(slots, was, p, c, Layer(0)) {
      OccupantIs(slots, was, c, Layer(0), p);
    }
    if At(slots, m.proposed, p, c, Layer(0)) {
      OccupantIs(slots, m.proposed, c, Layer(0), p);
    }
  }

  /** A head needs SET_MODE if and only if the DRM core marked its mode, connectors or
  active bit as changed, or its primary plane is in the commit and is without a
  framebuffer before or after, or changes its size or its place on the screen. */
  lemma SetModeIff(q: HeadReq, slots: seq<Slot>, home: seq<nat>, was: DrmState, m: Commit, c: nat, p: nat)
    requires Proper(slots, was, m) && c < |was.crtcs| && m.crtcsIn[c] && ReqInSync(slots, was, q, c)
    requires OwnHeads(slots, home, was) && OwnHeads(slots, home, m.proposed)
    requires p < |slots| && slots[p] == Layer(0) && home[p] == c
    ensures NeedsSetMode(HeadCommitted(q, slots, was, m, c)) <==>
              || m.changes[c].mode || m.changes[c].connectors || m.changes[c].active
              || (PrimaryIn(slots, was, m, c, p) && ViewChanges(slots, was, m, c))
  {
    PrimaryRequest(q, slots, home, was, m, c, p);
    LayerOfHead(Duplicated(q), slots, was, m, c, |slots|);
  }

  /** What the DRM core does for a CRTC that needs a modeset: every plane that was on it
  is added to the commit. */
  predicate PlanesAdded(slots: seq<Slot>, was: DrmState, m: Commit, c: nat)
    requires Sized(slots, was, m) && c < |m.changes|
  {
    var ch := m.changes[c];
    ch.mode || ch.connectors || ch.active ==>
      forall p :: 0 <= p < |slots| && was.planes[p].crtc == Some(c) ==> m.planesIn[p]
  }

  /** So the cursor is only at stake on a head that takes the SET_MODE path without a
  modeset of its own. */
  lemma ModesetHoldsCursor(slots: seq<Slot>, was: DrmState, m: Commit, c: nat)
    requires Proper(slots, was, m) && c < |m.changes| && PlanesAdded(slots, was, m, c)
    requires m.changes[c].mode || m.changes[c].connectors || m.changes[c].active
    ensures CursorHeld(slots, m, c)
  {
  }

  // ------------------------------------------------------------------ counterexamples

  function PlaneAt(c: Option<nat>, fb: Option<nat>, w: nat, h: nat): (ps: PlaneState) {
    PlaneState(c, fb, 0, 0, w * 0x10000, h * 0x10000, 0, 0, w, h, 0, false)
  }

  const LIT := CrtcState(true, 1)
  const MONITOR := ConnectorState(Some(0), Some(5))

  function CrossingBefore(): (d: DrmState) {
    DrmState([PlaneAt(None, None, 0, 0), PlaneAt(Some(0), Some(7), 640, 480)], [LIT], [MONITOR])
  }

  function CrossingCommit(): (m: Commit) {
    Commit([true, true], [true], [false], [CrtcChanges(false, false, false)],
           DrmState([PlaneAt(Some(0), Some(8), 640, 480), PlaneAt(None, None, 0, 0)], [LIT], [MONITOR]))
  }

  /** One commit swaps two planes of a layer: the plane that enters is checked first,
  and the disabling of the one that leaves overwrites it. */
  lemma EnteringPlaneLost()
    ensures Proper([Layer(0), Layer(0)], CrossingBefore(), CrossingCommit())
    ensures Crossed([Layer(0), Layer(0)], CrossingBefore(), CrossingCommit(), 0, Layer(0))
    ensures WantedLayer([Layer(0), Layer(0)], CrossingCommit().proposed, 0, 0).surface == Some(8)
    ensures forall hw: LayerConfig ::
              LayerAfter(LayerReq(hw, NONE_CHANGED), [Layer(0), Layer(0)], CrossingBefore(), CrossingCommit(), 0, 0, 2)
              == DisabledLayer()
  {
    var slots := [Layer(0), Layer(0)];
    assert Crossing(slots, CrossingBefore(), CrossingCommit(), 0, Layer(0), 0, 1);
    assert CrtcProper(CrossingBefore(), CrossingCommit(), 0);
    assert At(slots, CrossingCommit().proposed, 0, 0, Layer(0));
    OccupantIs(slots, CrossingCommit().proposed, 0, Layer(0), 0);
  }

  const TWO_PLANES := [Layer(0), Cursor]

  function CursorBefore(): (d: DrmState) {
    DrmState([PlaneAt(Some(0), Some(1), 640, 480), PlaneAt(Some(0), Some(2), 64, 64)], [LIT], [MONITOR])
  }

  /** The primary plane shrinks; the cursor plane is not in the commit. */
  function ResizeCommit(): (m: Commit) {
    Commit([true, false], [true], [false], [CrtcChanges(false, false, false)],
           DrmState([PlaneAt(Some(0), Some(1), 320, 240), PlaneAt(Some(0), Some(2), 64, 64)], [LIT], [MONITOR]))
  }

  /** A device with that head lit, in step with its state. */
  function LitDevice(): (d: Device) {
    var layer := FullLayer(CursorBefore().planes[0]);
    var layers := seq(LAYER_MAX, l requires 0 <= l < LAYER_MAX => if l == 0 then layer else NO_LAYER);
    var modeSet := ModeSet(true, [5], 1);
    Device(CursorBefore(),
           [HeadReq(modeSet, false, false, false, NO_CURSOR,
                    seq(LAYER_MAX, l requires 0 <= l < LAYER_MAX => LayerReq(layers[l], NONE_CHANGED)))],
           [Some(HwHead(modeSet, HwCursor(Some(2), 0, 0, 0), layers))])
  }

  lemma LitInSync()
    ensures InSync(TWO_PLANES, LitDevice())
  {
    var was := CursorBefore();
    assert Routed(was.connectors, 0, 1) == [5];
    assert At(TWO_PLANES, was, 0, 0, Layer(0)) && At(TWO_PLANES, was, 1, 0, Cursor);
    OccupantIs(TWO_PLANES, was, 0, Layer(0), 0);
    OccupantIs(TWO_PLANES, was, 0, Cursor, 1);
    forall l: nat | 0 < l < LAYER_MAX ensures WantedLayer(TWO_PLANES, was, 0, l) == NO_LAYER {
    }
  }

  lemma ResizeNeedsSetMode(q: HeadReq)
    requires ReqInSync(TWO_PLANES, CursorBefore(), q, 0)
    ensures NeedsSetMode(HeadCommitted(q, TWO_PLANES, CursorBefore(), ResizeCommit(), 0))
  {
    var slots, was, m := TWO_PLANES, CursorBefore(), ResizeCommit();
    LayerOfHead(Duplicated(q), slots, was, m, 0, 2);
    assert At(slots, was, 0, 0, Layer(0));
    OccupantIs(slots, was, 0, Layer(0), 0);
    assert q.layers[0].config == FullLayer(was.planes[0]);
    assert LayerAfter(Duplicated(q).layers[0], slots, was, m, 0, 0, 1)
        == UpdatedLayer(q.layers[0].config, m.proposed.planes[0]);
  }

  lemma ResizeProper()
    ensures Proper(TWO_PLANES, CursorBefore(), ResizeCommit())
  {
    assert CrtcProper(CursorBefore(), ResizeCommit(), 0);
  }

  /** A lit head with a cursor, in step; a commit that only resizes its primary plane is
  accepted, takes the SET_MODE path, and leaves the head shown without its cursor. */
  lemma CursorLostOnResize(d: Device)
    requires InSync(TWO_PLANES, d) && d.drm == CursorBefore()
    ensures InSync(TWO_PLANES, LitDevice()) && LitDevice().drm == CursorBefore()
    ensures Proper(TWO_PLANES, d.drm, ResizeCommit()) && Accepted(TWO_PLANES, d.drm, ResizeCommit(), false)
    ensures TakesSetMode(Requested(d, TWO_PLANES, ResizeCommit()), ResizeCommit().crtcsIn)
    ensures var d' := Committed(d, TWO_PLANES, ResizeCommit(), false);
            && |d'.hw| == 1 && d'.hw[0].Some? && d'.hw[0].value.cursor.surface.None?
            && Occupant(TWO_PLANES, d'.drm, 0, Cursor, 2) == Some(1) && d'.drm.planes[1].fb == Some(2)
            && !InSync(TWO_PLANES, d')
  {
    var slots, was, m := TWO_PLANES, CursorBefore(), ResizeCommit();
    LitInSync();
    ResizeProper();
    ResizeNeedsSetMode(d.reqs[0]);
    var qs := Requested(d, slots, m);
    assert NeedsSetMode(qs[0]) && m.crtcsIn[0];
    ModeSetExact(d.reqs[0], slots, was, m, 0);
    assert Routed(m.proposed.connectors, 0, 1) == [5];
    assert At(slots, m.proposed, 1, 0, Cursor);
    OccupantIs(slots, m.proposed, 0, Cursor, 1);
    CursorOfHead(Duplicated(d.reqs[0]), slots, was, m, 0, 2);
    assert CursorAfter(NO_CURSOR, slots, was, m, 0, 2) == NO_CURSOR;
  }

  // ------------------------------------------------------------------- the operations

  /** nv_drm_crtc_duplicate_req_head_modeset_config. */
  method DuplicateHead(q: HeadReq) returns (r: HeadReq)
    ensures r == Duplicated(q)
  {
    var layers: seq<LayerReq> := [];
    for i := 0 to |q.layers|
      invariant |layers| == i
      invariant forall j :: 0 <= j < i ==> layers[j] == LayerReq(q.layers[j].config, NONE_CHANGED)
    {
      layers := layers + [LayerReq(q.layers[i].config, NONE_CHANGED)];
    }
    r := HeadReq(q.modeSet, false, false, false, NO_CURSOR, layers);
  }

  /** ApplyModeSetConfig: the scan for a head that needs SET_MODE, and then one of the two
  loops over the heads of the request. */
  method ApplyModeSetConfig(hw: seq<Option<HwHead>>, qs: seq<HeadReq>, held: seq<bool>)
      returns (hw': seq<Option<HwHead>>)
    requires |hw| == |qs| == |held|
    requires forall c :: 0 <= c < |hw| && hw[c].Some? ==> |hw[c].value.layers| == |qs[c].layers|
    ensures hw' == ApplyRequest(hw, qs, held)
  {
    var required := false;
    var head := 0;
    while head < |qs| && !required
      invariant head <= |qs|
      invariant required ==> TakesSetMode(qs, held)
      invariant !required ==> forall c :: 0 <= c < head && held[c] ==> !NeedsSetMode(qs[c])
    {
      if held[head] {
        required := NeedsSetMode(qs[head]);
      }
      head := head + 1;
    }
    assert required == TakesSetMode(qs, held);
    hw' := hw;
    for c := 0 to |qs|
      invariant |hw'| == |hw|
      invariant forall k :: 0 <= k < c ==> hw'[k] == if held[k] then Programmed(hw[k], qs[k], required) else hw[k]
      invariant forall k :: c <= k < |hw| ==> hw'[k] == hw[k]
    {
      if held[c] {
        if required {
          hw' := hw'[c := None];
          if qs[c].modeSet.displays != [] && qs[c].modeSet.active {
            hw' := hw'[c := Some(SetModeHead(qs[c]))];
          }
        } else if qs[c].modeSet.displays != [] && qs[c].modeSet.active && hw'[c].Some? {
          hw' := hw'[c := Some(ApplyHead(hw'[c].value, qs[c]))];
        }
      }
    }
  }

  lemma RoutedGrows(cs: seq<ConnectorState>, held: seq<bool>, c: nat, i: nat, n: nat)
    requires i <= n <= |cs| == |held|
    ensures |RoutedIn(cs, held, c, i)| <= |RoutedIn(cs, held, c, n)|
    decreases n - i
  {
    if i < n {
      RoutedGrows(cs, held, c, i, n - 1);
    }
  }

  function WithLayer(q: HeadReq, l: nat, x: LayerReq): (r: HeadReq)
    requires l < |q.layers|
  {
    q.(layers := q.layers[l := x])
  }

  /** The requests of the CRTCs in a commit, as the checks rewrite them. */
  class Requests {
    var reqs: seq<HeadReq>

    constructor (current: seq<HeadReq>)
      ensures reqs == current
    {
      reqs := current;
    }

    /** plane_req_config_update. */
    method UpdateLayer(c: nat, l: nat, ps: PlaneState, syncpts: bool) returns (ok: bool)
      requires c < |reqs| && l < |reqs[c].layers|
      modifies this
      ensures ok <==> !Refused(Layer(l), ps, syncpts)
      ensures |reqs| == |old(reqs)|
      ensures ok ==> reqs == old(reqs)[c := WithLayer(old(reqs)[c], l, UpdatedLayer(old(reqs)[c].layers[l].config, ps))]
    {
      var prev := reqs[c].layers[l].config;
      if ps.fb.None? {
        SetLayer(c, l, DisabledLayer());
        return true;
      }
      var g := FullLayer(ps);
      if ps.fenced && !syncpts {
        SetLayer(c, l, LayerReq(g, NONE_CHANGED));
        return false;
      }
      var flags := NONE_CHANGED.(surface := true);
      if prev.surface.None? && prev.surface != g.surface {
        flags := flags.(srcXY := true, srcWH := true, dstXY := true, dstWH := true);
      } else {
        flags := flags.(srcXY := prev.srcX != g.srcX || prev.srcY != g.srcY);
        flags := flags.(srcWH := prev.srcW != g.srcW || prev.srcH != g.srcH);
        flags := flags.(dstXY := prev.dstX != g.dstX || prev.dstY != g.dstY);
        flags := flags.(dstWH := prev.dstW != g.dstW || prev.dstH != g.dstH);
      }
      SetLayer(c, l, LayerReq(g, flags));
      return true;
    }

    method SetLayer(c: nat, l: nat, q: LayerReq)
      requires c < |reqs| && l < |reqs[c].layers|
      modifies this
      ensures reqs == old(reqs)[c := WithLayer(old(reqs)[c], l, q)]
    {
      reqs := reqs[c := reqs[c].(layers := reqs[c].layers[l := q])];
    }

    /** cursor_plane_req_config_update. */
    method UpdateCursor(c: nat, ps: PlaneState)
      requires c < |reqs|
      modifies this
      ensures reqs == old(reqs)[c := old(reqs)[c].(cursor := UpdatedCursor(old(reqs)[c].cursor, ps))]
    {
      var prev := reqs[c].cursor;
      var q := prev.(surface := None, surfaceChanged := true);
      if ps.fb.Some? {
        q := CursorReq(ps.fb, ps.look, S16(ps.crtcX), S16(ps.crtcY), true, false);
        if prev.surface.None? && prev.surface != q.surface {
          q := q.(dstXYChanged := true);
        } else {
          q := q.(dstXYChanged := prev.dstX != q.dstX || prev.dstY != q.dstY);
        }
      }
      reqs := reqs[c := reqs[c].(cursor := q)];
    }

    /** The body of nv_drm_plane_atomic_check's loop, for one CRTC in the commit. */
    method CheckPlaneOn(slot: Slot, was: PlaneState, now: PlaneState, c: nat, syncpts: bool) returns (ok: bool)
      requires c < |reqs| && (slot.Layer? ==> slot.index < |reqs[c].layers|)
      modifies this
      ensures |reqs| == |old(reqs)|
      ensures ok <==> !(Fills(now, c) && Refused(slot, now, syncpts))
      ensures ok ==> reqs == old(reqs)[c := PlaneOnHead(old(reqs)[c], slot, was, now, c)]
    {
      ok := true;
      if was.crtc == Some(c) && was.crtc != now.crtc {
        if slot.Cursor? {
          reqs := reqs[c := reqs[c].(cursor := DisabledCursor(reqs[c].cursor))];
        } else {
          SetLayer(c, slot.index, DisabledLayer());
        }
      } else if now.crtc == Some(c) {
        if slot.Cursor? {
          UpdateCursor(c, now);
        } else {
          ok := UpdateLayer(c, slot.index, now, syncpts);
        }
      }
    }

    /** nv_drm_plane_atomic_check: the loop over the CRTCs of the commit. */
    method CheckPlane(slot: Slot, was: PlaneState, now: PlaneState, crtcsIn: seq<bool>, syncpts: bool)
        returns (ok: bool)
      requires |crtcsIn| == |reqs|
      requires slot.Layer? ==> forall c :: 0 <= c < |reqs| ==> slot.index < |reqs[c].layers|
      modifies this
      ensures |reqs| == |old(reqs)|
      ensures ok <==> forall c :: 0 <= c < |crtcsIn| && crtcsIn[c] && Fills(now, c) ==> !Refused(slot, now, syncpts)
      ensures ok ==> forall c :: 0 <= c < |reqs| ==>
                       reqs[c] == if crtcsIn[c] then PlaneOnHead(old(reqs)[c], slot, was, now, c) else old(reqs)[c]
    {
      ok := true;
      for i := 0 to |crtcsIn|
        invariant |reqs| == |old(reqs)|
        invariant forall c :: 0 <= c < i && crtcsIn[c] && Fills(now, c) ==> !Refused(slot, now, syncpts)
        invariant forall c :: 0 <= c < i ==>
                    reqs[c] == if crtcsIn[c] then PlaneOnHead(old(reqs)[c], slot, was, now, c) else old(reqs)[c]
        invariant forall c :: i <= c < |reqs| ==> reqs[c] == old(reqs)[c]
      {
        if crtcsIn[i] {
          ok := CheckPlaneOn(slot, was, now, i, syncpts);
          if !ok {
            return;
          }
        }
      }
      ok := true;
    }

    /** nv_drm_crtc_atomic_check: rebuilds the displays of a CRTC whose connectors changed. */
    method CheckCrtc(m: Commit, c: nat) returns (ok: bool)
      requires c < |reqs| && c < |m.crtcsIn| == |m.changes| == |m.proposed.crtcs| && m.crtcsIn[c]
      requires |m.connectorsIn| == |m.proposed.connectors|
      modifies this
      ensures |reqs| == |old(reqs)|
      ensures ok <==> DisplaysAccepted(m, c, |m.connectorsIn|)
      ensures ok ==>
                reqs == old(reqs)[c := HeadChecked(
                  old(reqs)[c], m.changes[c], m.proposed.crtcs[c],
                  RoutedIn(m.proposed.connectors, m.connectorsIn, c, |m.connectorsIn|))]
    {
      var q := reqs[c];
      var ch := m.changes[c];
      if ch.mode {
        q := q.(modeSet := q.modeSet.(mode := m.proposed.crtcs[c].mode), modeChanged := true);
      }
      if ch.connectors {
        var displays: seq<nat> := [];
        for j := 0 to |m.connectorsIn|
          invariant displays == RoutedIn(m.proposed.connectors, m.connectorsIn, c, j)
          invariant DisplaysAccepted(m, c, j)
        {
          var k := m.proposed.connectors[j];
          if m.connectorsIn[j] && k.crtc == Some(c) {
            if k.display.None? || |displays| >= MAX_CLONE_DISPLAYS {
              RoutedGrows(m.proposed.connectors, m.connectorsIn, c, j + 1, |m.connectorsIn|);
              return false;
            }
            displays := displays + [k.display.value];
          }
        }
        q := q.(modeSet := q.modeSet.(displays := displays), displaysChanged := true);
      }
      if ch.active {
        q := q.(modeSet := q.modeSet.(active := m.proposed.crtcs[c].active), activeChanged := true);
      }
      reqs := reqs[c := q];
      ok := true;
    }

    /** The duplication of the state of every CRTC in the commit. */
    method DuplicateAll(crtcsIn: seq<bool>)
      requires |crtcsIn| == |reqs|
      modifies this
      ensures |reqs| == |old(reqs)|
      ensures forall c :: 0 <= c < |reqs| ==> reqs[c] == if crtcsIn[c] then Duplicated(old(reqs)[c]) else old(reqs)[c]
    {
      for i := 0 to |crtcsIn|
        invariant |reqs| == |old(reqs)|
        invariant forall c :: 0 <= c < i ==> reqs[c] == if crtcsIn[c] then Duplicated(old(reqs)[c]) else old(reqs)[c]
        invariant forall c :: i <= c < |reqs| ==> reqs[c] == old(reqs)[c]
      {
        if crtcsIn[i] {
          var q := DuplicateHead(reqs[i]);
          reqs := reqs[i := q];
        }
      }
    }

    /** The checks of every plane in the commit, in order. */
    method CheckPlanes(slots: seq<Slot>, was: DrmState, m: Commit, syncpts: bool) returns (ok: bool)
      requires Sized(slots, was, m) && |reqs| == |m.crtcsIn|
      requires forall c :: 0 <= c < |reqs| ==> |reqs[c].layers| == LAYER_MAX
      modifies this
      ensures |reqs| == |old(reqs)|
      ensures ok <==> forall p :: 0 <= p < |slots| ==> PlaneAccepted(slots, m, syncpts, p)
      ensures ok ==>
                forall c :: 0 <= c < |reqs| ==>
                  reqs[c] == if m.crtcsIn[c] then HeadAfter(old(reqs)[c], slots, was, m, c, |slots|) else old(reqs)[c]
    {
      for i := 0 to |slots|
        invariant |reqs| == |old(reqs)|
        invariant forall p :: 0 <= p < i ==> PlaneAccepted(slots, m, syncpts, p)
        invariant forall c :: 0 <= c < |reqs| ==> |reqs[c].layers| == LAYER_MAX
        invariant forall c :: 0 <= c < |reqs| ==>
                    reqs[c] == if m.crtcsIn[c] then HeadAfter(old(reqs)[c], slots, was, m, c, i) else old(reqs)[c]
      {
        if m.planesIn[i] {
          ok := CheckPlane(slots[i], was.planes[i], m.proposed.planes[i], m.crtcsIn, syncpts);
          if !ok {
            assert !PlaneAccepted(slots, m, syncpts, i);
            return;
          }
        }
      }
      ok := true;
    }

    /** nv_drm_atomic_check: planes first and then CRTCs. */
    method AtomicCheck(slots: seq<Slot>, was: DrmState, m: Commit, syncpts: bool) returns (ok: bool)
      requires Sized(slots, was, m) && |reqs| == |m.crtcsIn|
      requires forall c :: 0 <= c < |reqs| ==> |reqs[c].layers| == LAYER_MAX
      modifies this
      ensures |reqs| == |old(reqs)|
      ensures ok <==> Accepted(slots, was, m, syncpts)
      ensures ok ==> forall c :: 0 <= c < |reqs| ==>
                       reqs[c] == if m.crtcsIn[c] then HeadCommitted(old(reqs)[c], slots, was, m, c) else old(reqs)[c]
    {
      DuplicateAll(m.crtcsIn);
      ok := CheckPlanes(slots, was, m, syncpts);
      if !ok {
        return;
      }
      ghost var checked := reqs;
      for i := 0 to |m.crtcsIn|
        invariant |reqs| == |checked|
        invariant forall c :: 0 <= c < i ==> DisplaysAccepted(m, c, |m.connectorsIn|)
        invariant forall c :: 0 <= c < i && m.crtcsIn[c] ==> reqs[c] == HeadCommitted(old(reqs)[c], slots, was, m, c)
        invariant forall c :: 0 <= c < |reqs| && (i <= c || !m.crtcsIn[c]) ==> reqs[c] == checked[c]
      {
        if m.crtcsIn[i] {
          ok := CheckCrtc(m, i);
          if !ok {
            return;
          }
        }
      }
      ok := true;
    }
  }
}
