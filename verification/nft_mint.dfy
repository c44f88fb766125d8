/**
 * The NFT mint workflow of src/pages/NFTMint.tsx.
 *
 * The page keeps the form (name, description, chosen file, image preview),
 * `minting`, `mintProgress` and the minted NFTs (newest first). A mint run
 * is: the click, twenty firings of the 100 ms interval each adding 5, then
 * the 500 ms settle timeout that records the NFT and resets the form. The
 * settle callback is a closure over the form values at click time; `Draft`
 * holds them. A chosen file's preview arrives later, when its FileReader
 * finishes; `loading` holds the previews still being read. The random id
 * digits and the clock reading at settle time are event parameters.
 */
module NftMint {
  import opened Basics

  /** A chosen image file, with the data URL reading it yields. */
  datatype ImageFile = ImageFile(fileName: string, dataUrl: string)

  datatype Nft = Nft(id: string, name: string, description: string, image: string, mintedAt: nat)

  /** The form values the mint handler's closure captured. */
  datatype Draft = Draft(name: string, description: string, image: string)

  /** The timer a mint run is waiting on, if any, with the draft of that run. */
  datatype Timer = Idle | Ticking(draft: Draft) | Settling(draft: Draft)

  datatype Page = Page(
    name: string,
    description: string,
    file: Option<ImageFile>,
    preview: Option<string>,
    loading: seq<string>,
    minting: bool,
    progress: int,
    minted: seq<Nft>,
    timer: Timer
  )

  const InitialPage: Page := Page("", "", None, None, [], false, 0, [], Idle)

  /** What one interval firing adds to the progress. */
  const ProgressStep: int := 5

  /** Interval firings in one run. */
  const TicksPerRun: nat := 20

  /** At most this many hexadecimal digits follow `0x` in an id. */
  const IdDigitLimit: nat := 8

  /** The digits `Math.random().toString(16).slice(2, 10)` yields: at most eight. */
  type IdDigits = ds: seq<HexDigit> | |ds| <= IdDigitLimit

  /** `nftImagePreview` is truthy. */
  predicate HasPreview(p: Page) {
    p.preview.Some? && p.preview.value != ""
  }

  // ---------------------------------------------------------------------
  // Form events
  // ---------------------------------------------------------------------

  /** The form is rendered on the connected page, and its controls are disabled while minting. */
  predicate FormEditable(p: Page, connected: bool) {
    connected && !p.minting
  }

  function EditName(p: Page, connected: bool, v: string): (r: Page)
    ensures FormEditable(p, connected) ==> r == p.(name := v)
    ensures !FormEditable(p, connected) ==> r == p
  {
    if FormEditable(p, connected) then p.(name := v) else p
  }

  function EditDescription(p: Page, connected: bool, v: string): (r: Page)
    ensures FormEditable(p, connected) ==> r == p.(description := v)
    ensures !FormEditable(p, connected) ==> r == p
  {
    if FormEditable(p, connected) then p.(description := v) else p
  }

  /** `handleImageChange`: with no file it returns; otherwise the file is kept and its reading starts. */
  function HandleImageChange(p: Page, file: Option<ImageFile>): (r: Page)
    ensures file.None? ==> r == p
    ensures file.Some? ==>
              && r == p.(file := file, loading := p.loading + [file.value.dataUrl])
              && multiset(r.loading) == multiset(p.loading) + multiset{file.value.dataUrl}
  {
    if file.None? then p else p.(file := file, loading := p.loading + [file.value.dataUrl])
  }

  /** The file input is rendered only while there is no preview, and disabled while minting. */
  predicate ImageInputShown(p: Page, connected: bool) {
    FormEditable(p, connected) && !HasPreview(p)
  }

  /** The `i`-th pending reading finishes and its data URL becomes the preview. */
  function ReadFinished(p: Page, i: nat): (r: Page)
    ensures i >= |p.loading| ==> r == p
    ensures i < |p.loading| ==>
              && r.preview == Some(p.loading[i])
              && r.loading == Remove(p.loading, i)
              && r == p.(preview := r.preview, loading := r.loading)
  {
    if i < |p.loading| then p.(preview := Some(p.loading[i]), loading := Remove(p.loading, i)) else p
  }

  /** The remove button's handler: clears the file and the preview and nothing else. */
  function HandleRemoveImage(p: Page): (r: Page)
    ensures r.file.None? && r.preview.None? && !HasPreview(r)
    ensures r.(file := p.file, preview := p.preview) == p
  {
    p.(file := None, preview := None)
  }

  /** The remove button is rendered only with a preview, and disabled while minting. */
  predicate RemoveShown(p: Page, connected: bool) {
    FormEditable(p, connected) && HasPreview(p)
  }

  // ---------------------------------------------------------------------
  // The mint run
  // ---------------------------------------------------------------------

  /** The mint button is rendered while not minting and enabled only with a name and a preview. */
  predicate MintEnabled(p: Page, connected: bool) {
    connected && p.name != "" && HasPreview(p) && !p.minting
  }

  /**
   * `handleMintNFT`: unless connected with a name and a preview it returns
   * at once; otherwise it starts the run, capturing the form values. The
   * page has one timer slot, so only a call made while no run is in
   * progress is modelled; the button is the only caller and is disabled
   * while minting.
   */
  function HandleMint(p: Page, connected: bool): (r: Page)
    requires !p.minting
    ensures !(connected && p.name != "" && HasPreview(p)) ==> r == p
    ensures connected && p.name != "" && HasPreview(p) ==>
              && r.minting
              && r.progress == 0
              && r.timer == Ticking(Draft(p.name, p.description, p.preview.value))
              && r.(minting := p.minting, progress := p.progress, timer := p.timer) == p
  {
    if !(connected && p.name != "" && HasPreview(p)) then p
    else p.(minting := true, progress := 0, timer := Ticking(Draft(p.name, p.description, p.preview.value)))
  }

  /** A click on the mint button: only an enabled button can be clicked. */
  function PressMint(p: Page, connected: bool): (r: Page)
    ensures !MintEnabled(p, connected) ==> r == p
    ensures MintEnabled(p, connected) ==> r.minting && r.timer.Ticking? && r.timer.draft.image == p.preview.value
  {
    if MintEnabled(p, connected) then HandleMint(p, connected) else p
  }

  /** One firing of the interval: add the step; from 100 on the interval is cleared and the settle timeout set. */
  function Tick(p: Page): (r: Page)
    ensures !p.timer.Ticking? ==> r == p
    ensures p.timer.Ticking? ==>
              && r.progress == p.progress + ProgressStep
              && (r.progress >= 100 ==> r.timer == Settling(p.timer.draft))
              && (r.progress < 100 ==> r.timer == p.timer)
              && r.(progress := p.progress, timer := p.timer) == p
  {
    if !p.timer.Ticking? then p
    else
      var next := p.progress + ProgressStep;
      p.(progress := next, timer := if next >= 100 then Settling(p.timer.draft) else p.timer)
  }

  /** The id `0x${...}` built from the random digits. */
  function NftId(ds: IdDigits): (id: string)
    ensures 2 <= |id| <= 2 + IdDigitLimit
    ensures id[..2] == "0x"
    ensures forall i :: 2 <= i < |id| ==> IsHexChar(id[i])
  {
    "0x" + HexString(ds)
  }

  /** The id reads back as the digits drawn. */
  lemma NftIdRoundTrip(ds: IdDigits)
    ensures ParseHex(NftId(ds)[2..]) == Some(ds)
  {
    assert NftId(ds)[2..] == HexString(ds);
    HexStringRoundTrip(ds);
  }

  /**
   * The settle timeout: the run ends, the NFT built from the captured draft
   * is put in front of the collection, and the form is reset.
   */
  function Settle(p: Page, ds: IdDigits, now: nat): (r: Page)
    ensures !p.timer.Settling? ==> r == p
    ensures p.timer.Settling? ==>
              var d := p.timer.draft;
              && !r.minting
              && r.timer == Idle
              && |r.minted| == |p.minted| + 1
              && r.minted[1..] == p.minted
              && r.minted[0].name == d.name
              && r.minted[0].description == d.description
              && r.minted[0].image == d.image
              && r.minted[0].mintedAt == now
              && |r.minted[0].id| >= 2 && r.minted[0].id[..2] == "0x"
              && r.name == "" && r.description == ""
              && r.file.None? && r.preview.None?
              && r.progress == p.progress
              && r.loading == p.loading
  {
    if !p.timer.Settling? then p
    else
      var d := p.timer.draft;
      var nft := Nft(NftId(ds), d.name, d.description, d.image, now);
      p.(minting := false, minted := [nft] + p.minted,
         name := "", description := "", file := None, preview := None, timer := Idle)
  }

  // ---------------------------------------------------------------------
  // Events and runs
  // ---------------------------------------------------------------------

  datatype Event =
    | TypeName(connected: bool, v: string)
    | TypeDescription(connected: bool, v: string)
    | ChooseImage(connected: bool, file: Option<ImageFile>)
    | ReadDone(index: nat)
    | RemoveImage(connected: bool)
    | Mint(connected: bool)
    | IntervalFired
    | TimeoutFired(digits: IdDigits, now: nat)

  function Step(p: Page, e: Event): Page {
    match e
    case TypeName(c, v) => EditName(p, c, v)
    case TypeDescription(c, v) => EditDescription(p, c, v)
    case ChooseImage(c, f) => if ImageInputShown(p, c) then HandleImageChange(p, f) else p
    case ReadDone(i) => ReadFinished(p, i)
    case RemoveImage(c) => if RemoveShown(p, c) then HandleRemoveImage(p) else p
    case Mint(c) => PressMint(p, c)
    case IntervalFired => Tick(p)
    case TimeoutFired(ds, now) => Settle(p, ds, now)
  }

  /** `n` firings of the interval in a row. */
  function Ticks(p: Page, n: nat): Page
    decreases n
  {
    if n == 0 then p else Ticks(Tick(p), n - 1)
  }

  // ---------------------------------------------------------------------
  // Properties
  // ---------------------------------------------------------------------

  /** A minted NFT carries a name and an image, and an id of `0x` and at most eight hexadecimal digits. */
  ghost predicate WellFormedNft(n: Nft) {
    && n.name != ""
    && n.image != ""
    && 2 <= |n.id| <= 2 + IdDigitLimit
    && n.id[..2] == "0x"
  }

  /**
   * What every reachable page satisfies: minting exactly while a timer is
   * live; progress a multiple of five within [0, 100], below 100 while
   * ticking and exactly 100 while settling; the draft of a live run has a
   * name and an image; every minted NFT is well formed.
   */
  ghost predicate Inv(p: Page) {
    && (p.minting <==> !p.timer.Idle?)
    && 0 <= p.progress <= 100
    && p.progress % ProgressStep == 0
    && (p.timer.Ticking? ==> p.progress < 100)
    && (p.timer.Settling? ==> p.progress == 100)
    && (!p.timer.Idle? ==> p.timer.draft.name != "" && p.timer.draft.image != "")
    && (forall k :: 0 <= k < |p.minted| ==> WellFormedNft(p.minted[k]))
  }

  lemma StepPreservesInv(p: Page, e: Event)
    requires Inv(p)
    ensures Inv(Step(p, e))
  {
    if e.TimeoutFired? && p.timer.Settling? {
      var r := Step(p, e);
      forall k | 0 <= k < |r.minted|
        ensures WellFormedNft(r.minted[k])
      {
        if k > 0 {
          assert r.minted[k] == p.minted[k - 1];
        }
      }
    }
  }

  /** From a fresh page, any sequence of events keeps progress in [0, 100] and every minted NFT well formed. */
  lemma ReachableInv(es: seq<Event>)
    ensures var p := RunSteps(Step, InitialPage, es);
            && (p.minting <==> !p.timer.Idle?)
            && 0 <= p.progress <= 100
            && p.progress % 5 == 0
            && forall k :: 0 <= k < |p.minted| ==>
                 p.minted[k].name != "" && p.minted[k].image != "" && |p.minted[k].id| >= 2 && p.minted[k].id[..2] == "0x"
  {
    forall t, e | Inv(t) ensures Inv(Step(t, e)) {
      StepPreservesInv(t, e);
    }
    RunKeeps(Step, t => Inv(t), InitialPage, es);
  }

  /** A click on the mint button starts a run exactly when the button is enabled, and then the handler's own guard passes. */
  lemma MintButtonGuard(p: Page, connected: bool)
    ensures PressMint(p, connected) != p <==> MintEnabled(p, connected)
    ensures MintEnabled(p, connected) ==> PressMint(p, connected) == HandleMint(p, connected)
  {
  }

  /**
   * Once a run has captured its draft, no event but the settle timeout ends
   * it, and none changes the draft; the settle timeout records exactly that
   * draft.
   */
  lemma DraftFixedDuringRun(p: Page, e: Event)
    requires Inv(p)
    requires !p.timer.Idle?
    ensures var r := Step(p, e);
            && (!e.TimeoutFired? ==> !r.timer.Idle? && r.timer.draft == p.timer.draft)
            && (r.timer.Idle? ==>
                  && r.minted[0].name == p.timer.draft.name
                  && r.minted[0].description == p.timer.draft.description
                  && r.minted[0].image == p.timer.draft.image)
  {
  }

  /** After `k` firings of a fresh run the progress is 5k, capped at twenty firings; the twentieth hands over to the settle timeout. */
  lemma {:induction false} TicksFromStart(p: Page, k: nat)
    requires p.timer.Ticking? && p.progress == 0
    ensures var q := Ticks(p, k);
            && q.progress == ProgressStep * (if k < TicksPerRun then k else TicksPerRun)
            && (q.timer == Ticking(p.timer.draft) <==> k < TicksPerRun)
            && (q.timer == Settling(p.timer.draft) <==> k >= TicksPerRun)
            && q.minted == p.minted
            && q.name == p.name
  {
    TicksFrom(p, 0, k);
  }

  lemma {:induction false} TicksFrom(p: Page, j: nat, k: nat)
    requires j <= TicksPerRun
    requires p.progress == ProgressStep * j
    requires p.timer.Ticking? || p.timer.Settling?
    requires p.timer.Ticking? <==> j < TicksPerRun
    ensures var q := Ticks(p, k);
            var m := if j + k < TicksPerRun then j + k else TicksPerRun;
            && q.progress == ProgressStep * m
            && (q.timer.Ticking? <==> m < TicksPerRun)
            && (q.timer.Ticking? || q.timer.Settling?)
            && q.timer.draft == p.timer.draft
            && q.(progress := p.progress, timer := p.timer) == p
    decreases k
  {
    if k > 0 {
      if j < TicksPerRun {
        TicksFrom(Tick(p), j + 1, k - 1);
      } else {
        TicksFrom(Tick(p), j, k - 1);
      }
    }
  }

  /**
   * A whole run from an enabled button: click, twenty interval firings and
   * the settle timeout prepend exactly one NFT holding the form's name,
   * description and preview, keep the earlier NFTs as its tail, and reset
   * the form.
   */
  lemma FullMint(p: Page, ds: IdDigits, now: nat)
    requires MintEnabled(p, true)
    ensures var r := Settle(Ticks(PressMint(p, true), TicksPerRun), ds, now);
            && !r.minting
            && r.progress == 100
            && r.minted == [Nft(NftId(ds), p.name, p.description, p.preview.value, now)] + p.minted
            && r.name == "" && r.description == ""
            && r.file.None? && r.preview.None?
  {
    TicksFromStart(PressMint(p, true), TicksPerRun);
  }
}
