/** The scanner screen: a manual barcode field whose trimmed content is
    emitted on submit, and a simulated camera scan that emits a fixed
    barcode when its timer fires. */
module Scanner {
  import opened Wrappers
  import opened Text
  import opened Catalog

  /** The barcode the simulated camera always reads. */
  const MockBarcode: string := "1234567890123"

  /** The simulated scan finds catalog product "1". */
  lemma MockBarcodeFindsProduct()
    ensures FindProductByBarcode(MockBarcode) == Some(MockProducts[0])
    ensures MockProducts[0].id == "1"
  {
    KnownBarcodes();
  }

  class ScannerView {
    var manualBarcode: string
    var isScanning: bool

    constructor ()
      ensures manualBarcode == "" && !isScanning
    {
      manualBarcode := "";
      isScanning := false;
    }

    method SetManualBarcode(s: string)
      modifies this`manualBarcode
      ensures manualBarcode == s
    {
      manualBarcode := s;
    }

    /** The scan button is disabled while a scan runs. */
    predicate ScanButtonDisabled()
      reads this`isScanning
    {
      isScanning
    }

    /** `handleManualSubmit`: nothing for a blank field, otherwise the
        trimmed barcode, emitted once; the field keeps its text. */
    method HandleManualSubmit() returns (emitted: Option<string>)
      ensures emitted.None? <==> IsBlank(manualBarcode)
      ensures emitted.Some? ==> emitted.value == Trim(manualBarcode) && emitted.value != ""
      ensures emitted.Some? ==> !IsSpace(emitted.value[0]) && !IsSpace(emitted.value[|emitted.value| - 1])
    {
      TrimEmptyIffBlank(manualBarcode);
      var code := Trim(manualBarcode);
      if code != "" {
        emitted := Some(code);
      } else {
        emitted := None;
      }
    }

    /** `simulateScan`: the scan starts and the button disables. */
    method SimulateScan()
      modifies this`isScanning
      ensures isScanning && ScanButtonDisabled()
    {
      isScanning := true;
    }

    /** The scan timer fires: the scan stops, then the fixed barcode is
        emitted. */
    method ScanTimerFires() returns (code: string)
      requires isScanning
      modifies this`isScanning
      ensures !isScanning && !ScanButtonDisabled()
      ensures code == MockBarcode
    {
      isScanning := false;
      code := MockBarcode;
    }
  }
}
