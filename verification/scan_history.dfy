/**
  The history page of src/components/ScanHistoryClientPage.tsx: deleting one
  scan by id, clearing the history, and the label of the risk badge.
 */
module ScanHistory {
  import opened Types

  /** The number of scans in `h` with the given id. */
  function CountId(h: seq<ScanResult>, id: string): nat {
    if h == [] then 0
    else (if h[0].id == id then 1 else 0) + CountId(h[1..], id)
  }

  /** `handleDeleteScan`: keeps the scans whose id differs, in their order. */
  function DeleteScan(h: seq<ScanResult>, id: string): (r: seq<ScanResult>)
    ensures |r| <= |h|
    ensures forall i :: 0 <= i < |r| ==> r[i].id != id
  {
    if h == [] then []
    else
      var rest := DeleteScan(h[1..], id);
      if h[0].id == id then rest else [h[0]] + rest
  }

  /** Exactly the scans with that id are gone, and nothing else is. */
  lemma {:induction false} DeleteScanMembers(h: seq<ScanResult>, id: string)
    ensures forall s :: s in DeleteScan(h, id) <==> s in h && s.id != id
  {
    if h != [] {
      DeleteScanMembers(h[1..], id);
      assert h == [h[0]] + h[1..];
    }
  }

  /** The history shrinks by the number of scans carrying the id. */
  lemma {:induction false} DeleteScanLength(h: seq<ScanResult>, id: string)
    ensures |DeleteScan(h, id)| == |h| - CountId(h, id)
  {
    if h != [] {
      DeleteScanLength(h[1..], id);
    }
  }

  /** Deletion works scan by scan: it distributes over concatenation, so relative order is kept. */
  lemma {:induction false} DeleteScanAppend(a: seq<ScanResult>, b: seq<ScanResult>, id: string)
    ensures DeleteScan(a + b, id) == DeleteScan(a, id) + DeleteScan(b, id)
  {
    if a == [] {
      assert a + b == b;
    } else {
      assert (a + b)[1..] == a[1..] + b;
      DeleteScanAppend(a[1..], b, id);
    }
  }

  /** Deleting an id no scan carries changes nothing. */
  lemma {:induction false} DeleteScanAbsent(h: seq<ScanResult>, id: string)
    requires forall i :: 0 <= i < |h| ==> h[i].id != id
    ensures DeleteScan(h, id) == h
  {
    if h != [] {
      DeleteScanAbsent(h[1..], id);
      assert h == [h[0]] + h[1..];
    }
  }

  /** Deleting the same id twice is deleting it once. */
  lemma DeleteScanIdempotent(h: seq<ScanResult>, id: string)
    ensures DeleteScan(DeleteScan(h, id), id) == DeleteScan(h, id)
  {
    DeleteScanAbsent(DeleteScan(h, id), id);
  }

  /** Deletion shortens the history exactly when the id is present. */
  lemma {:induction false} DeleteScanShrinks(h: seq<ScanResult>, id: string)
    ensures |DeleteScan(h, id)| < |h| <==> exists i :: 0 <= i < |h| && h[i].id == id
  {
    if h != [] {
      DeleteScanShrinks(h[1..], id);
      if h[0].id != id {
        if exists i :: 0 <= i < |h| && h[i].id == id {
          var i :| 0 <= i < |h| && h[i].id == id;
          assert h[1..][i - 1].id == id;
        }
      }
    }
  }

  /** `handleDeleteAllScans`: whatever was stored, the history is empty afterwards. */
  function DeleteAllScans(h: seq<ScanResult>): (r: seq<ScanResult>)
    ensures |r| == 0
  {
    []
  }

  /**
    `getRiskBadgeForHistory`: the label shown for a stored risk level. It is
    one of the four level names, and it is the stored value itself or Unknown.
   */
  function BadgeLabel(riskLevel: string): (shown: string)
    ensures shown in {"Low", "Medium", "High", "Unknown"}
    ensures shown == riskLevel || shown == "Unknown"
  {
    match riskLevel
    case "Low" => "Low"
    case "Medium" => "Medium"
    case "High" => "High"
    case _ => "Unknown"
  }

  /**
    The badge shows each of the four risk levels as itself, and a stored value
    shows as itself exactly when it is one of their names; anything else reads
    as Unknown.
   */
  lemma BadgeLabelNames(r: RiskLevel, stored: string)
    ensures BadgeLabel(RiskName(r)) == RiskName(r)
    ensures BadgeLabel(stored) == stored <==> stored in {"Low", "Medium", "High", "Unknown"}
    ensures BadgeLabel(stored) != stored ==> BadgeLabel(stored) == RiskName(Unknown)
  {
  }
}
