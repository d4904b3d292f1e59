/** The `POST /upload-plate` handler: the OCR fragments are joined and
    upper-cased, a keyword test decides whether the plate is a disabled one, and
    if so the lot's occupied count goes up by one. Whether the OCR libraries are
    installed, what OCR read (or that it failed) and whether the database write
    succeeded are inputs. */
module LicensePlate {
  import opened Text

  /** The stored row of a lot, as far as the handler uses it. */
  datatype LotRow = LotRow(totalSpots: int, occupiedSpots: int)

  /** What the OCR stage gave: an exception (unreadable image, reader failure)
      or the text fragments it read, in order. */
  datatype OcrOutcome = OcrFailed | OcrRead(fragments: seq<string>)

  datatype Response =
    | DependenciesMissing                      // HTTP 501
    | LotNotFound                              // HTTP 404
    | ServerError                              // HTTP 500
    | NoDisabledPlate(detectedText: string)
    | CountUpdated(lotId: string, detectedText: string, occupied: int, available: int)

  function StatusCode(r: Response): int {
    match r
    case DependenciesMissing => 501
    case LotNotFound => 404
    case ServerError => 500
    case _ => 200
  }

  const Keywords: seq<string> := ["DISABLED", "HANDICAP", "HC", "WHEELCHAIR", "DP", "DISABILITY"]

  /** The fragments joined with single spaces, then upper-cased. */
  function DetectedText(fragments: seq<string>): string {
    ToUpper(JoinWithSpaces(fragments))
  }

  /** Python's `any(k in text for k in keywords)`, in list order. */
  function AnyKeyword(text: string, keywords: seq<string>): (r: bool)
    ensures r <==> exists k :: 0 <= k < |keywords| && Contains(text, keywords[k])
  {
    if keywords == [] then false
    else Contains(text, keywords[0]) || AnyKeyword(text, keywords[1..])
  }

  predicate IsDisabled(text: string) {
    AnyKeyword(text, Keywords)
  }

  /** A fragment holding a keyword in any letter case marks the plate as disabled,
      wherever it stands among the fragments. */
  lemma FragmentWithKeyword(fragments: seq<string>, i: nat, k: nat)
    requires i < |fragments| && k < |Keywords|
    requires Contains(ToUpper(fragments[i]), Keywords[k])
    ensures IsDisabled(DetectedText(fragments))
  {
    JoinContainsParts(fragments, i);
    ContainsUpper(JoinWithSpaces(fragments), fragments[i]);
    ContainsTrans(DetectedText(fragments), ToUpper(fragments[i]), Keywords[k]);
  }

  /** Every keyword holds a `D` or an `H`, so text with neither is never flagged. */
  lemma NoDOrHNotDisabled(text: string)
    requires 'D' !in text && 'H' !in text
    ensures !IsDisabled(text)
  {
    forall k | 0 <= k < |Keywords|
      ensures !Contains(text, Keywords[k])
    {
      if Contains(text, Keywords[k]) {
        if k == 0 || k == 4 || k == 5 {
          ContainsChar(text, Keywords[k], 0);
        } else if k == 1 || k == 2 {
          ContainsChar(text, Keywords[k], 0);
        } else {
          ContainsChar(text, Keywords[k], 1);
        }
      }
    }
  }

  /** The counts the handler writes and reports: one more occupied spot, no cap
      at the total; the reported free spots never go below zero. */
  function CountAfterArrival(row: LotRow): (r: (int, int))
    ensures r.0 == row.occupiedSpots + 1
    ensures r.1 >= 0
    ensures r.1 == 0 <==> r.0 >= row.totalSpots
    ensures r.1 > 0 ==> r.0 + r.1 == row.totalSpots
  {
    var occupied := row.occupiedSpots + 1;
    (occupied, if row.totalSpots - occupied > 0 then row.totalSpots - occupied else 0)
  }

  /** The lots table, updated in place by the handler. */
  class PlateService {
    var lots: map<string, LotRow>

    constructor (initial: map<string, LotRow>)
      ensures lots == initial
    {
      lots := initial;
    }

    /** `upload_plate`. A write that finds no row (or any other exception) ends
        in a 500 and changes nothing. */
    method UploadPlate(lotId: string, dependenciesInstalled: bool, ocr: OcrOutcome, writeSucceeds: bool)
      returns (r: Response)
      modifies this
      ensures !dependenciesInstalled ==> r == DependenciesMissing && lots == old(lots)
      ensures dependenciesInstalled && ocr.OcrFailed? ==> r == ServerError && lots == old(lots)
      ensures dependenciesInstalled && ocr.OcrRead? && !IsDisabled(DetectedText(ocr.fragments)) ==>
                r == NoDisabledPlate(DetectedText(ocr.fragments)) && lots == old(lots)
      ensures dependenciesInstalled && ocr.OcrRead? && IsDisabled(DetectedText(ocr.fragments))
              && lotId !in old(lots) ==>
                r == LotNotFound && lots == old(lots)
      ensures dependenciesInstalled && ocr.OcrRead? && IsDisabled(DetectedText(ocr.fragments))
              && lotId in old(lots) && !writeSucceeds ==>
                r == ServerError && lots == old(lots)
      ensures dependenciesInstalled && ocr.OcrRead? && IsDisabled(DetectedText(ocr.fragments))
              && lotId in old(lots) && writeSucceeds ==>
                var counts := CountAfterArrival(old(lots)[lotId]);
                r == CountUpdated(lotId, DetectedText(ocr.fragments), counts.0, counts.1)
                && lots == old(lots)[lotId := LotRow(old(lots)[lotId].totalSpots, counts.0)]
    {
      if !dependenciesInstalled {
        return DependenciesMissing;
      }
      if ocr.OcrFailed? {
        return ServerError;
      }
      var textDetected := DetectedText(ocr.fragments);
      var isDisabled := IsDisabled(textDetected);
      if !isDisabled {
        return NoDisabledPlate(textDetected);
      }
      if lotId !in lots {
        return LotNotFound;
      }
      var lot := lots[lotId];
      var occupied := lot.occupiedSpots + 1;
      var available := if 0 > lot.totalSpots - occupied then 0 else lot.totalSpots - occupied;
      if !writeSucceeds {
        return ServerError;
      }
      lots := lots[lotId := LotRow(lot.totalSpots, occupied)];
      r := CountUpdated(lotId, textDetected, occupied, available);
    }
  }
}
