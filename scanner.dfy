/**
 * The scanner page of src/pages/Scanner.tsx: a second debounce layer over
 * the decoder hook (`lastScanned`, `isProcessing`), the scan log, the
 * barcode lookup and the hand-off to the cart provider's `addToCart`, the
 * manual entry form, the tab effect that starts and stops the decoder, and
 * the 3000 ms timer that forgets the last barcode, which is an explicit event.
 *
 * Every awaited call is one atomic step, so a whole `processBarcode` is one
 * step; which remote calls fail is given as a `ScanFaults` record.
 */
module ScannerPage {
  import opened Common
  import opened Catalog
  import opened CartTable
  import opened Remote
  import opened CartContext
  import opened Quagga

  datatype Tab = Camera | Manual

  /** Which remote calls of one `processBarcode` come back with an error. */
  datatype ScanFaults = ScanFaults(logFails: bool, lookupFails: bool, cart: Faults)

  /**
   * The page's state. `pendingResets` counts the reset timers that have
   * been started and have not fired yet.
   */
  datatype Page = Page(activeTab: Tab, manualBarcode: string, lastScanned: Option<string>,
                       scannedProduct: Option<Product>, isProcessing: bool, pendingResets: nat)

  /** Everything a scanner event can touch: the page, the decoder hook, the scan log and the cart. */
  datatype World = World(page: Page, hook: Hook, scans: seq<ScanRow>, session: Session)

  /** The page as first rendered. */
  const InitialPage := Page(Camera, "", None, None, false, 0)

  /** The lookup of `processBarcode`: `.eq('barcode', b).single()`, an error unless exactly one product matches. */
  function Lookup(products: seq<Product>, barcode: string, fails: bool): (r: Option<Product>)
    ensures r.Some? <==> !fails && |WithBarcode(products, barcode)| == 1
    ensures r.Some? ==> r.value in products && r.value.barcode == barcode
  {
    var matches := WithBarcode(products, barcode);
    if fails || |matches| != 1 then None else Some(matches[0])
  }

  /** `processBarcode(b)`, from `setIsProcessing(true)` through its `finally` block. */
  function AfterProcess(w: World, products: seq<Product>, user: Option<UserId>, barcode: string, f: ScanFaults): (r: World)
    requires Consistent(w.session, products)
    ensures !r.page.isProcessing
    ensures r.page.lastScanned == w.page.lastScanned && r.page.activeTab == w.page.activeTab
    ensures r.hook == w.hook
    ensures r.page.pendingResets == w.page.pendingResets + 1
    ensures r.page.manualBarcode == if w.page.activeTab == Manual then "" else w.page.manualBarcode
    ensures r.scans == if user.Some? && !f.logFails
                       then w.scans + [ScanRow(barcode, user.value, "scanned")] else w.scans
    ensures user.None? ==> r.scans == w.scans && r.session == w.session
    ensures r.page.scannedProduct == Lookup(products, barcode, f.lookupFails)
    ensures r.page.scannedProduct.None? ==> r.session == w.session
    ensures r.page.scannedProduct.Some? ==>
      r.session == AfterAdd(w.session, products, user, r.page.scannedProduct.value.id, f.cart)
    ensures Consistent(r.session, products)
  {
    var scans := if user.Some? && !f.logFails
                 then w.scans + [ScanRow(barcode, user.value, "scanned")] else w.scans;
    var found := Lookup(products, barcode, f.lookupFails);
    var session := if found.Some? then AfterAdd(w.session, products, user, found.value.id, f.cart) else w.session;
    var page := w.page.(scannedProduct := found, isProcessing := false,
                        manualBarcode := if w.page.activeTab == Manual then "" else w.page.manualBarcode,
                        pendingResets := w.page.pendingResets + 1);
    World(page, w.hook, scans, session)
  }

  /** A read `handleDetection` drops: the barcode it just took, or any read while one is being processed. */
  predicate Suppressed(p: Page, barcode: string) {
    p.lastScanned == Some(barcode) || p.isProcessing
  }

  /** `handleDetection(b)`: drop a suppressed read, otherwise remember it and process it. */
  function AfterDetection(w: World, products: seq<Product>, user: Option<UserId>, barcode: string, f: ScanFaults): (r: World)
    requires Consistent(w.session, products)
    ensures Suppressed(w.page, barcode) ==> r == w
    ensures !Suppressed(w.page, barcode) ==>
      r == AfterProcess(w.(page := w.page.(lastScanned := Some(barcode))), products, user, barcode, f)
    ensures !Suppressed(w.page, barcode) ==> r.page.lastScanned == Some(barcode)
    ensures Consistent(r.session, products)
  {
    if Suppressed(w.page, barcode) then w
    else AfterProcess(w.(page := w.page.(lastScanned := Some(barcode))), products, user, barcode, f)
  }

  /** A frame from the running decoder: the hook's filter, then `handleDetection` for what it passes on. */
  function AfterFrame(w: World, products: seq<Product>, user: Option<UserId>, now: int, d: Detection, f: ScanFaults): (r: World)
    requires Consistent(w.session, products)
    ensures r.hook == OnDetected(w.hook, now, d).hook
    ensures now - w.hook.lastScanTime < CooldownPeriod ==> r == w
    ensures !Confident(d) ==> r.scans == w.scans && r.session == w.session && r.page == w.page
    ensures Confident(d) && now - w.hook.lastScanTime >= CooldownPeriod ==>
      r == AfterDetection(w.(hook := r.hook), products, user, BarcodeOf(d.codeResult.value), f)
    ensures Consistent(r.session, products)
  {
    var st := OnDetected(w.hook, now, d);
    var w' := w.(hook := st.hook);
    if st.forwarded.None? then w' else AfterDetection(w', products, user, st.forwarded.value, f)
  }

  /** The form's submit: nothing for an empty input, otherwise process it; `lastScanned` is neither checked nor set. */
  function AfterManualSubmit(w: World, products: seq<Product>, user: Option<UserId>, f: ScanFaults): (r: World)
    requires Consistent(w.session, products)
    ensures w.page.manualBarcode == "" ==> r == w
    ensures w.page.manualBarcode != "" ==> r == AfterProcess(w, products, user, w.page.manualBarcode, f)
    ensures r.page.lastScanned == w.page.lastScanned
    ensures Consistent(r.session, products)
  {
    if w.page.manualBarcode == "" then w
    else AfterProcess(w, products, user, w.page.manualBarcode, f)
  }

  /** One of the 3000 ms timers started by `processBarcode` fires. */
  function AfterResetTimer(p: Page): (r: Page)
    requires p.pendingResets > 0
    ensures r.lastScanned.None?
    ensures r.pendingResets == p.pendingResets - 1
    ensures r == p.(lastScanned := None, pendingResets := r.pendingResets)
  {
    p.(lastScanned := None, pendingResets := p.pendingResets - 1)
  }

  /**
   * The tab effect on its re-run: the previous run's cleanup stops the
   * decoder, then the camera tab starts it (its viewport is mounted) and the
   * other tab stops it.
   */
  function TabEffect(h: Hook, tab: Tab, initFails: bool): (r: Hook)
    ensures tab == Manual ==> !r.isInitialized
    ensures tab == Camera ==> (r.isInitialized <==> !initFails)
    ensures tab == Camera && !initFails ==> r.lastScanTime == 0
    ensures r.isInitialized || r.lastScanTime == h.lastScanTime
  {
    var stopped := Stop(h);
    if tab == Camera then Init(stopped, true, initFails) else Stop(stopped)
  }

  // ---------------------------------------------------------------------------
  // Runs of camera reads

  /** The state after `handleDetection` takes each barcode in turn, and the barcodes it processed. */
  datatype Trace = Trace(world: World, processed: seq<string>)

  function DetectAll(w: World, products: seq<Product>, user: Option<UserId>, bs: seq<string>, fs: seq<ScanFaults>): (r: Trace)
    requires Consistent(w.session, products) && |fs| == |bs|
    ensures Consistent(r.world.session, products)
    decreases |bs|
  {
    if bs == [] then Trace(w, [])
    else
      var w' := AfterDetection(w, products, user, bs[0], fs[0]);
      var rest := DetectAll(w', products, user, bs[1..], fs[1..]);
      Trace(rest.world, (if Suppressed(w.page, bs[0]) then [] else [bs[0]]) + rest.processed)
  }

  /** After a run, `lastScanned` holds the barcode processed last, or what it held before when none was. */
  lemma {:induction false} LastScannedAfterRun(w: World, products: seq<Product>, user: Option<UserId>,
                                               bs: seq<string>, fs: seq<ScanFaults>)
    requires Consistent(w.session, products) && |fs| == |bs|
    ensures var t := DetectAll(w, products, user, bs, fs);
      && (t.processed != [] ==> t.world.page.lastScanned == Some(t.processed[|t.processed| - 1]))
      && (t.processed == [] ==> t.world.page.lastScanned == w.page.lastScanned)
    decreases |bs|
  {
    if bs != [] {
      var w' := AfterDetection(w, products, user, bs[0], fs[0]);
      LastScannedAfterRun(w', products, user, bs[1..], fs[1..]);
      var rest := DetectAll(w', products, user, bs[1..], fs[1..]);
      var head := if Suppressed(w.page, bs[0]) then [] else [bs[0]];
      assert DetectAll(w, products, user, bs, fs) == Trace(rest.world, head + rest.processed);
      if rest.processed != [] {
        assert (head + rest.processed)[|head + rest.processed| - 1] == rest.processed[|rest.processed| - 1];
      }
    }
  }

  /**
   * With no timer firing in between, `handleDetection` never processes the
   * same barcode twice in a row, nor the barcode it last took.
   */
  lemma {:induction false} NoImmediateRepeat(w: World, products: seq<Product>, user: Option<UserId>,
                                             bs: seq<string>, fs: seq<ScanFaults>)
    requires Consistent(w.session, products) && |fs| == |bs|
    ensures var t := DetectAll(w, products, user, bs, fs);
      && (forall i :: 0 <= i < |t.processed| - 1 ==> t.processed[i] != t.processed[i + 1])
      && (t.processed != [] ==> w.page.lastScanned != Some(t.processed[0]))
    decreases |bs|
  {
    if bs != [] {
      var w' := AfterDetection(w, products, user, bs[0], fs[0]);
      NoImmediateRepeat(w', products, user, bs[1..], fs[1..]);
      var rest := DetectAll(w', products, user, bs[1..], fs[1..]);
      var head := if Suppressed(w.page, bs[0]) then [] else [bs[0]];
      assert DetectAll(w, products, user, bs, fs).processed == head + rest.processed;
      if head != [] {
        assert w'.page.lastScanned == Some(bs[0]);
        var out := head + rest.processed;
        forall i | 0 <= i < |out| - 1 ensures out[i] != out[i + 1] {
          if i == 0 {
            assert out[1] == rest.processed[0];
          } else {
            assert out[i] == rest.processed[i - 1] && out[i + 1] == rest.processed[i];
          }
        }
      }
    }
  }

  /** The scan-log rows `processBarcode` writes for each of `bs`, in order, for user u. */
  function LogOf(bs: seq<string>, u: UserId): seq<ScanRow>
    decreases |bs|
  {
    if bs == [] then [] else [ScanRow(bs[0], u, "scanned")] + LogOf(bs[1..], u)
  }

  lemma {:induction false} LogOfAppend(a: seq<string>, b: seq<string>, u: UserId)
    ensures LogOf(a + b, u) == LogOf(a, u) + LogOf(b, u)
    decreases |a|
  {
    if a == [] {
      assert a + b == b;
    } else {
      assert (a + b)[0] == a[0] && (a + b)[1..] == a[1..] + b;
      LogOfAppend(a[1..], b, u);
    }
  }

  /** One read logs one row exactly when `handleDetection` takes it (for a signed-in user whose insert succeeds). */
  lemma DetectionLogs(w: World, products: seq<Product>, u: UserId, barcode: string, f: ScanFaults)
    requires Consistent(w.session, products) && !f.logFails
    ensures AfterDetection(w, products, Some(u), barcode, f).scans
         == w.scans + LogOf(if Suppressed(w.page, barcode) then [] else [barcode], u)
  {
  }

  /** Every barcode processed in a run is logged for a signed-in user whose log inserts succeed, in order. */
  lemma {:induction false} DetectAllLogsEachProcessed(w: World, products: seq<Product>, u: UserId,
                                                      bs: seq<string>, fs: seq<ScanFaults>)
    requires Consistent(w.session, products) && |fs| == |bs|
    requires forall i :: 0 <= i < |fs| ==> !fs[i].logFails
    ensures var t := DetectAll(w, products, Some(u), bs, fs);
      t.world.scans == w.scans + LogOf(t.processed, u)
    decreases |bs|
  {
    if bs != [] {
      var w' := AfterDetection(w, products, Some(u), bs[0], fs[0]);
      DetectAllLogsEachProcessed(w', products, u, bs[1..], fs[1..]);
      var rest := DetectAll(w', products, Some(u), bs[1..], fs[1..]);
      var head := if Suppressed(w.page, bs[0]) then [] else [bs[0]];
      var t := DetectAll(w, products, Some(u), bs, fs);
      assert t == Trace(rest.world, head + rest.processed);
      calc {
        t.world.scans;
        rest.world.scans;
        w'.scans + LogOf(rest.processed, u);
        { DetectionLogs(w, products, u, bs[0], fs[0]); }
        (w.scans + LogOf(head, u)) + LogOf(rest.processed, u);
        w.scans + (LogOf(head, u) + LogOf(rest.processed, u));
        { LogOfAppend(head, rest.processed, u); }
        w.scans + LogOf(t.processed, u);
      }
    } else {
      assert w.scans + LogOf([], u) == w.scans;
    }
  }

  /** Once the reset timer has fired, the barcode taken last is taken and processed again. */
  lemma ResetAllowsRescan(w: World, products: seq<Product>, user: Option<UserId>, barcode: string, f: ScanFaults)
    requires Consistent(w.session, products)
    requires w.page.pendingResets > 0 && !w.page.isProcessing && w.page.lastScanned == Some(barcode)
    ensures AfterDetection(w, products, user, barcode, f) == w
    ensures var r := AfterDetection(w.(page := AfterResetTimer(w.page)), products, user, barcode, f);
      r.page.lastScanned == Some(barcode) && r.page.scannedProduct == Lookup(products, barcode, f.lookupFails)
  {
  }

  // ---------------------------------------------------------------------------
  // The page

  class Scanner {
    const cart: CartProvider
    const quagga: QuaggaHook
    var activeTab: Tab
    var manualBarcode: string
    var lastScanned: Option<string>
    var scannedProduct: Option<Product>
    var isProcessing: bool
    var pendingResets: nat

    ghost predicate Valid()
      reads this, cart, cart.store
    {
      cart.Valid()
    }

    function PageState(): Page
      reads this
    {
      Page(activeTab, manualBarcode, lastScanned, scannedProduct, isProcessing, pendingResets)
    }

    function WorldState(): World
      reads this, cart, cart.store, quagga
    {
      World(PageState(), quagga.State(), cart.store.scans, cart.State())
    }

    /** The page before its first effect: camera tab, nothing scanned, decoder not started. */
    constructor (cart: CartProvider)
      requires cart.Valid()
      ensures Valid() && this.cart == cart && fresh(quagga)
      ensures PageState() == InitialPage && quagga.State() == Hook(false, 0)
    {
      this.cart := cart;
      quagga := new QuaggaHook();
      activeTab := Camera;
      manualBarcode := "";
      lastScanned := None;
      scannedProduct := None;
      isProcessing := false;
      pendingResets := 0;
    }

    /**
     * The tab effect runs: on mount, after a tab change, and after every
     * other render too, since `handleDetection` is a new function on each
     * render and so is the `initScanner` built on it.
     */
    method RunTabEffect(initFails: bool)
      modifies quagga
      ensures quagga.State() == TabEffect(old(quagga.State()), activeTab, initFails)
    {
      quagga.StopScanner();
      if activeTab == Camera {
        quagga.InitScanner(true, initFails);
      } else {
        quagga.StopScanner();
      }
    }

    /** The tab list's `onValueChange`; choosing the active tab again changes nothing. */
    method SelectTab(t: Tab, initFails: bool)
      modifies this`activeTab, quagga
      ensures activeTab == t
      ensures quagga.State() == if t == old(activeTab) then old(quagga.State())
                                else TabEffect(old(quagga.State()), t, initFails)
    {
      if t == activeTab {
        return;
      }
      activeTab := t;
      RunTabEffect(initFails);
    }

    /** Leaving the page runs the effect's cleanup. */
    method Unmount()
      modifies quagga
      ensures quagga.State() == Stop(old(quagga.State()))
    {
      quagga.StopScanner();
    }

    /** The input's `onChange`. */
    method TypeBarcode(text: string)
      modifies this`manualBarcode
      ensures manualBarcode == text
    {
      manualBarcode := text;
    }

    method ProcessBarcode(barcode: string, f: ScanFaults)
      requires Valid()
      modifies this`manualBarcode, this`scannedProduct, this`isProcessing, this`pendingResets
      modifies cart`cartItems, cart`loading, cart.store`cart, cart.store`nextId, cart.store`scans
      ensures Valid()
      ensures WorldState() == AfterProcess(old(WorldState()), cart.store.products, cart.user, barcode, f)
    {
      isProcessing := true;
      LogScan(barcode, f.logFails);
      var found := Lookup(cart.store.products, barcode, f.lookupFails);
      scannedProduct := found;
      if found.Some? {
        cart.AddToCart(found.value.id, f.cart);
      }
      FinishProcessing();
      ghost var r := AfterProcess(old(WorldState()), cart.store.products, cart.user, barcode, f);
      assert PageState() == r.page;
      assert cart.store.scans == r.scans;
      assert cart.State() == r.session;
    }

    /** The `barcode_scans` insert, made only for a signed-in user; a failed insert is not checked. */
    method LogScan(barcode: string, fails: bool)
      modifies cart.store`scans
      ensures cart.store.scans == if cart.user.Some? && !fails
                                  then old(cart.store.scans) + [ScanRow(barcode, cart.user.value, "scanned")]
                                  else old(cart.store.scans)
    {
      if cart.user.Some? && !fails {
        cart.store.scans := cart.store.scans + [ScanRow(barcode, cart.user.value, "scanned")];
      }
    }

    /** The `finally` block of `processBarcode`; the reset timer is started, not yet fired. */
    method FinishProcessing()
      modifies this`isProcessing, this`manualBarcode, this`pendingResets
      ensures !isProcessing && pendingResets == old(pendingResets) + 1
      ensures manualBarcode == if activeTab == Manual then "" else old(manualBarcode)
    {
      isProcessing := false;
      if activeTab == Manual {
        manualBarcode := "";
      }
      pendingResets := pendingResets + 1;
    }

    method HandleDetection(barcode: string, f: ScanFaults)
      requires Valid()
      modifies this`lastScanned, this`manualBarcode, this`scannedProduct, this`isProcessing, this`pendingResets
      modifies cart`cartItems, cart`loading, cart.store`cart, cart.store`nextId, cart.store`scans
      ensures Valid()
      ensures WorldState() == AfterDetection(old(WorldState()), cart.store.products, cart.user, barcode, f)
    {
      if Some(barcode) == lastScanned || isProcessing {
        return;
      }
      lastScanned := Some(barcode);
      ProcessBarcode(barcode, f);
    }

    /** A frame of the running decoder, stamped `now`. */
    method CameraFrame(now: int, d: Detection, f: ScanFaults)
      requires Valid() && quagga.isInitialized
      modifies quagga, this`lastScanned, this`manualBarcode, this`scannedProduct, this`isProcessing, this`pendingResets
      modifies cart`cartItems, cart`loading, cart.store`cart, cart.store`nextId, cart.store`scans
      ensures Valid()
      ensures WorldState() == AfterFrame(old(WorldState()), cart.store.products, cart.user, now, d, f)
    {
      var barcode := quagga.Detected(now, d);
      if barcode.Some? {
        HandleDetection(barcode.value, f);
      }
    }

    method HandleManualSubmit(f: ScanFaults)
      requires Valid()
      modifies this`manualBarcode, this`scannedProduct, this`isProcessing, this`pendingResets
      modifies cart`cartItems, cart`loading, cart.store`cart, cart.store`nextId, cart.store`scans
      ensures Valid()
      ensures WorldState() == AfterManualSubmit(old(WorldState()), cart.store.products, cart.user, f)
    {
      if manualBarcode != "" {
        ProcessBarcode(manualBarcode, f);
      }
    }

    method ResetTimerFires()
      requires pendingResets > 0
      modifies this`lastScanned, this`pendingResets
      ensures PageState() == AfterResetTimer(old(PageState()))
    {
      lastScanned := None;
      pendingResets := pendingResets - 1;
    }
  }
}
