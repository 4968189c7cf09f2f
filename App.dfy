/** The state logic of the App component (App.tsx): the VIN field and its
    edits, the print guard, the busy flag around a print job, and the print
    settings kept in step with the settings store. */
module App {
  import opened Wrappers
  import opened VinEntry
  import opened Constants
  import opened Settings
  import opened Canvas
  import opened PrintService

  /** The text of the alert shown when a print job throws. */
  const PrintErrorMessage: string := "Error de impresión. Verifique RAWBT."

  predicate IsCorrectLength(vin: string) {
    |vin| == VinLength
  }

  predicate IsAuthorized(vin: string) {
    vin in AuthorizedVins
  }

  /** `canPrint`: the print buttons are live and `handlePrint` does work. */
  predicate CanPrint(vin: string) {
    IsCorrectLength(vin) && IsAuthorized(vin)
  }

  /** Every listed VIN has the right length, so membership alone decides
      `canPrint`. */
  lemma AuthorizedIsCorrectLength(vin: string)
    requires IsAuthorized(vin)
    ensures IsCorrectLength(vin) && CanPrint(vin) && IsVinText(vin)
  {
    EntriesHaveVinLength();
    EntriesAreVinText();
  }

  /** The length test never decides anything: `canPrint` holds exactly when
      the input is one of the listed VINs. */
  lemma CanPrintIff(vin: string)
    ensures CanPrint(vin) <==> IsAuthorized(vin)
  {
    if IsAuthorized(vin) {
      AuthorizedIsCorrectLength(vin);
    }
  }

  /** When printing is allowed, the label text is the ten-character mask
      built from the VIN's last eight characters. */
  lemma PrintableMask(vin: string)
    requires CanPrint(vin)
    ensures |Mask(vin)| == 10
    ensures Mask(vin) == "*" + vin[9..] + "*"
  {
    var r := Mask(vin);
    assert r[1..9] == vin[9..];
    assert r == [r[0]] + r[1..9] + [r[9]];
  }

  /** A simulated scan makes the App printable, with label text `*3A004352*`. */
  lemma ScannerStubPrintable()
    ensures CanPrint(ScannerStubVin)
    ensures Mask(ScannerStubVin) == "*3A004352*"
  {
    ScannerStubIsListed();
    PrintableMask(ScannerStubVin);
  }

  /** The events of a print job that the guard let through: the dispatch, and
      the alert when the host threw. */
  function JobEvents(vin: string, settings: PrintSettings, copies: int,
                     hasContext: bool, encode: Bitmap -> string, rejectAt: Option<nat>): seq<Event>
  {
    var image := RenderedImage(Mask(vin), settings, hasContext, encode);
    var sent := Sent(copies, rejectAt);
    DispatchEvents(RawBtUrl(image), copies, sent)
      + (if sent < Iterations(copies) then [Alert(PrintErrorMessage)] else [])
  }

  lemma {:induction false} NoAlertInDispatch(url: string, copies: int, n: nat)
    ensures forall e :: e in DispatchEvents(url, copies, n) ==> !e.Alert?
  {
    DispatchCounts(url, copies, n);
  }

  /** A job the host accepts throughout hands off once per copy and, with
      more than one copy, waits once per copy; it raises no alert. Printing
      one copy is a single hand-off and nothing else. */
  lemma PrintJobHandoffs(vin: string, settings: PrintSettings, copies: int,
                         hasContext: bool, encode: Bitmap -> string)
    ensures var t := JobEvents(vin, settings, copies, hasContext, encode, None);
      && CountHandoffs(t) == Iterations(copies)
      && CountWaits(t) == (if copies > 1 then copies else 0)
      && (forall e :: e in t ==> !e.Alert?)
    ensures copies == 1 ==>
      JobEvents(vin, settings, copies, hasContext, encode, None)
        == [Handoff(RawBtUrl(RenderedImage(Mask(vin), settings, hasContext, encode)))]
  {
    var url := RawBtUrl(RenderedImage(Mask(vin), settings, hasContext, encode));
    var t := JobEvents(vin, settings, copies, hasContext, encode, None);
    assert t == DispatchEvents(url, copies, Iterations(copies));
    DispatchCounts(url, copies, Iterations(copies));
    NoAlertInDispatch(url, copies, Iterations(copies));
    if copies == 1 {
      assert DispatchEvents(url, copies, 1) == DispatchEvents(url, copies, 0) + CopyEvents(url, copies);
    }
  }

  /** A job the host rejects at hand-off `k` has handed off `k` copies and
      ends with the alert. */
  lemma RejectedJobAlerts(vin: string, settings: PrintSettings, copies: int,
                          hasContext: bool, encode: Bitmap -> string, k: nat)
    requires k < Iterations(copies)
    ensures var t := JobEvents(vin, settings, copies, hasContext, encode, Some(k));
      && CountHandoffs(t) == k
      && t != [] && t[|t| - 1] == Alert(PrintErrorMessage)
  {
    var url := RawBtUrl(RenderedImage(Mask(vin), settings, hasContext, encode));
    var d := DispatchEvents(url, copies, k);
    var t := JobEvents(vin, settings, copies, hasContext, encode, Some(k));
    assert t == d + [Alert(PrintErrorMessage)];
    DispatchCounts(url, copies, k);
    CountsAppend(d, [Alert(PrintErrorMessage)]);
    assert [Alert(PrintErrorMessage)][..0] == [];
  }

  /** Without a drawing context the empty image still reaches the dispatcher,
      and every hand-off goes to `rawbt:undefined`. */
  lemma NoContextJobUrl(vin: string, settings: PrintSettings, copies: int,
                        encode: Bitmap -> string, rejectAt: Option<nat>)
    ensures forall e :: e in JobEvents(vin, settings, copies, false, encode, rejectAt) && e.Handoff? ==>
      e.url == "rawbt:undefined"
  {
    CommaFreeImageUrl("");
    DispatchCounts("rawbt:undefined", copies, Sent(copies, rejectAt));
  }

  /** The App component's state, and the host it acts on. `store` is the
      browser's key-value storage. */
  class App {
    var vinInput: string
    var isPrinting: bool
    var settings: PrintSettings
    var store: Store
    const host: Host

    /** The settings in memory are the ones the store would load. */
    predicate InSync()
      reads this
    {
      LoadSettings(store) == settings
    }

    /** The VIN field holds at most 17 characters, all in `[A-Z0-9]`. */
    predicate VinWellFormed()
      reads this
    {
      IsVinText(vinInput) && |vinInput| <= VinLength
    }

    /** Mounting: an empty VIN field, not printing, settings loaded from the
        store or defaulted. */
    constructor (store: Store, host: Host)
      ensures this.store == store && this.host == host
      ensures vinInput == "" && !isPrinting
      ensures settings == LoadSettings(store)
      ensures InSync() && VinWellFormed()
    {
      this.store := store;
      this.host := host;
      vinInput := "";
      isPrinting := false;
      settings := LoadSettings(store);
    }

    /** `saveSettings`: the new record is both in memory and in the store. */
    method SaveSettings(newSettings: PrintSettings)
      modifies this`settings, this`store
      ensures settings == newSettings
      ensures store == StoreSettings(old(store), newSettings)
      ensures InSync()
    {
      settings := newSettings;
      store := StoreSettings(store, newSettings);
      LoadAfterStore(old(store), newSettings);
    }

    /** An orientation button. */
    method SelectOrientation(o: Orientation)
      modifies this`settings, this`store
      ensures settings == WithOrientation(old(settings), o)
      ensures store == StoreSettings(old(store), settings)
      ensures InSync()
    {
      SaveSettings(WithOrientation(settings, o));
    }

    /** A slider move, `value` being `parseInt` of the slider's value. */
    method MoveSlider(f: Slider, value: int)
      modifies this`settings, this`store
      ensures settings == WithSlider(old(settings), f, value)
      ensures store == StoreSettings(old(store), settings)
      ensures InSync()
    {
      SaveSettings(WithSlider(settings, f, value));
    }

    /** "Restaurar valores de fábrica": memory and store both hold the defaults. */
    method RestoreFactoryDefaults()
      modifies this`settings, this`store
      ensures settings == DefaultSettings
      ensures store == StoreSettings(old(store), DefaultSettings)
      ensures LoadSettings(store) == DefaultSettings
    {
      SaveSettings(DefaultSettings);
    }

    /** `handleInputChange`: the filtered edit replaces the field only when it
        has at most 17 characters; otherwise the field keeps its old value. */
    method HandleInputChange(raw: string)
      modifies this`vinInput
      ensures vinInput == if |Filter(raw)| <= VinLength then Filter(raw) else old(vinInput)
      ensures old(VinWellFormed()) ==> VinWellFormed()
    {
      var val := Filter(raw);
      if |val| <= VinLength {
        vinInput := val;
      }
    }

    /** Picking an entry of the list panel: the field gets the entry, which
        is well formed and printable. */
    method PickFromList(i: nat)
      requires i < |AuthorizedVins|
      modifies this`vinInput
      ensures vinInput == AuthorizedVins[i]
      ensures VinWellFormed() && CanPrint(vinInput)
    {
      vinInput := AuthorizedVins[i];
      AuthorizedIsCorrectLength(vinInput);
    }

    /** The scanner's result callback: the value is taken as it is. */
    method OnScan(vin: string)
      modifies this`vinInput
      ensures vinInput == vin
      ensures VinWellFormed() <==> IsVinText(vin) && |vin| <= VinLength
    {
      vinInput := vin;
    }

    /** `handlePrint(copies)`. When `canPrint` is false nothing changes and
        nothing is rendered or sent. Otherwise the flag is raised, the masked
        VIN is rendered and dispatched, an alert is shown if the host threw,
        and the flag is lowered again in every case. `busyDuringJob` samples
        the flag just after it is raised, after rendering and after dispatch.
        The samples mean the flag stayed up throughout because neither callee
        can write it: `GeneratePrintImage` modifies nothing that existed
        before, and `SendToRawBT` modifies only `host`. */
    method HandlePrint(copies: int, hasContext: bool, encode: Bitmap -> string, rejectAt: Option<nat>)
      returns (ghost busyDuringJob: bool)
      modifies this`isPrinting, host
      ensures !CanPrint(vinInput) ==> isPrinting == old(isPrinting) && host.trace == old(host.trace)
      ensures CanPrint(vinInput) ==> !isPrinting && busyDuringJob
      ensures CanPrint(vinInput) ==>
        host.trace == old(host.trace) + JobEvents(vinInput, settings, copies, hasContext, encode, rejectAt)
    {
      busyDuringJob := false;
      if !CanPrint(vinInput) {
        return;
      }
      isPrinting := true;
      busyDuringJob := isPrinting;
      var imageUrl, canvas := GeneratePrintImage(Mask(vinInput), settings, hasContext, encode);
      busyDuringJob := busyDuringJob && isPrinting;
      var result := SendToRawBT(host, imageUrl, copies, rejectAt);
      busyDuringJob := busyDuringJob && isPrinting;
      if result.HostRejected? {
        host.ShowAlert(PrintErrorMessage);
      }
      isPrinting := false;
    }
  }
}
