/**
 * The bulk operations page of the front end: the case selections of the
 * generate and status tabs, and the guards and state changes of its three
 * requests. A request is recorded in `sent`; its answer arrives through
 * `Finished`.
 */
module BulkPage {
  import opened Common
  import Selection

  /** A request the page sends. */
  datatype BulkRequest =
    | ImportCases(file: string, clientId: string)
    | GenerateDocuments(caseIds: seq<string>, documentType: string)
    | UpdateStatus(caseIds: seq<string>, status: string)
  {
    /** The error shown when the request fails without a message. */
    function Fallback(): string {
      match this
      case ImportCases(_, _) => "Failed to import cases"
      case GenerateDocuments(_, _) => "Failed to generate documents"
      case UpdateStatus(_, _) => "Failed to update status"
    }
  }

  /** How a request ended: the server's answer, or its error message when it
      sent one. */
  datatype Outcome = Answered(data: string) | Failed(message: Option<string>)

  /** A request that names a file and a client, or at least one case and
      a document type or status. */
  predicate NonEmpty(r: BulkRequest) {
    match r
    case ImportCases(_, c) => c != ""
    case GenerateDocuments(ids, t) => |ids| > 0 && t != ""
    case UpdateStatus(ids, s) => |ids| > 0 && s != ""
  }

  class BulkOperations {
    var loading: bool
    var error: string
    var result: Option<string>
    var clientId: string
    /** The chosen CSV file, by name. */
    var csvFile: Option<string>
    var selectedCases: seq<string>
    var documentType: string
    var statusUpdateCases: seq<string>
    var newStatus: string
    /** Every request sent, in order. */
    var sent: seq<BulkRequest>

    /** The guards keep empty requests off the wire. */
    predicate Valid()
      reads this`sent
    {
      forall i :: 0 <= i < |sent| ==> NonEmpty(sent[i])
    }

    constructor()
      ensures !loading && error == "" && result.None? && clientId == "" && csvFile.None?
      ensures selectedCases == [] && documentType == "NOTICE_TO_QUIT"
      ensures statusUpdateCases == [] && newStatus == "FILED" && sent == []
      ensures Valid()
    {
      loading := false;
      error := "";
      result := None;
      clientId := "";
      csvFile := None;
      selectedCases := [];
      documentType := "NOTICE_TO_QUIT";
      statusUpdateCases := [];
      newStatus := "FILED";
      sent := [];
    }

    method ChooseClient(id: string)
      modifies this`clientId
      ensures clientId == id
    {
      clientId := id;
    }

    /** `handleFileSelect`: only a chosen file replaces the current one. */
    method ChooseFile(file: Option<string>)
      modifies this`csvFile
      ensures csvFile == if file.Some? then file else old(csvFile)
    {
      if file.Some? {
        csvFile := file;
      }
    }

    method ChooseDocumentType(t: string)
      modifies this`documentType
      ensures documentType == t
    {
      documentType := t;
    }

    method ChooseStatus(s: string)
      modifies this`newStatus
      ensures newStatus == s
    {
      newStatus := s;
    }

    /** `toggleCaseSelection` on the generate tab's list. */
    method ToggleGenerateCase(id: string)
      modifies this`selectedCases
      ensures selectedCases == Selection.Toggle(old(selectedCases), id)
    {
      selectedCases := Selection.Toggle(selectedCases, id);
    }

    /** `toggleCaseSelection` on the status tab's list. */
    method ToggleStatusCase(id: string)
      modifies this`statusUpdateCases
      ensures statusUpdateCases == Selection.Toggle(old(statusUpdateCases), id)
    {
      statusUpdateCases := Selection.Toggle(statusUpdateCases, id);
    }

    /** Sending a request: the previous error and result are cleared and
        the page waits. */
    method Send(r: BulkRequest)
      modifies this`loading, this`error, this`result, this`sent
      ensures loading && error == "" && result.None? && sent == old(sent) + [r]
    {
      loading := true;
      error := "";
      result := None;
      sent := sent + [r];
    }

    /** `handleBulkImport`: without a file or a client, an error and no
        request. */
    method BulkImport()
      requires Valid()
      modifies this`loading, this`error, this`result, this`sent
      ensures Valid()
      ensures csvFile.None? || clientId == "" ==>
        error == "Please select a CSV file and client" && sent == old(sent) &&
        loading == old(loading) && result == old(result)
      ensures csvFile.Some? && clientId != "" ==>
        loading && error == "" && result.None? && sent == old(sent) + [ImportCases(csvFile.value, clientId)]
    {
      if csvFile.None? || clientId == "" {
        error := "Please select a CSV file and client";
        return;
      }
      Send(ImportCases(csvFile.value, clientId));
    }

    /** `handleBulkGenerate`: without a selected case or a document type,
        an error and no request. */
    method BulkGenerate()
      requires Valid()
      modifies this`loading, this`error, this`result, this`sent
      ensures Valid()
      ensures |selectedCases| == 0 || documentType == "" ==>
        error == "Please select cases and document type" && sent == old(sent) &&
        loading == old(loading) && result == old(result)
      ensures |selectedCases| > 0 && documentType != "" ==>
        loading && error == "" && result.None? && sent == old(sent) + [GenerateDocuments(selectedCases, documentType)]
    {
      if |selectedCases| == 0 || documentType == "" {
        error := "Please select cases and document type";
        return;
      }
      Send(GenerateDocuments(selectedCases, documentType));
    }

    /** `handleBulkStatusUpdate`: without a selected case or a status, an
        error and no request. */
    method BulkStatusUpdate()
      requires Valid()
      modifies this`loading, this`error, this`result, this`sent
      ensures Valid()
      ensures |statusUpdateCases| == 0 || newStatus == "" ==>
        error == "Please select cases and status" && sent == old(sent) &&
        loading == old(loading) && result == old(result)
      ensures |statusUpdateCases| > 0 && newStatus != "" ==>
        loading && error == "" && result.None? && sent == old(sent) + [UpdateStatus(statusUpdateCases, newStatus)]
    {
      if |statusUpdateCases| == 0 || newStatus == "" {
        error := "Please select cases and status";
        return;
      }
      Send(UpdateStatus(statusUpdateCases, newStatus));
    }

    /** The end of the last request sent: its answer shown, or the error
        message, the request's own fallback without one. */
    method Finished(o: Outcome)
      requires sent != []
      modifies this`loading, this`error, this`result
      ensures !loading
      ensures o.Answered? ==> result == Some(o.data) && error == old(error)
      ensures o.Failed? ==> error == OrElse(o.message, sent[|sent| - 1].Fallback()) && result == old(result)
    {
      loading := false;
      if o.Answered? {
        result := Some(o.data);
      } else {
        error := OrElse(o.message, sent[|sent| - 1].Fallback());
      }
    }
  }

  /** The selection after ticking the boxes of `ids` in turn, starting
      from none. */
  function Toggled(ids: seq<string>): seq<string>
    decreases |ids|
  {
    if ids == [] then [] else Selection.Toggle(Toggled(ids[..|ids| - 1]), ids[|ids| - 1])
  }

  /** A selection built by ticking boxes holds no id twice, so a bulk
      request never names a case twice. */
  lemma {:induction false} ToggledSelectionDistinct(ids: seq<string>)
    ensures forall i, j :: 0 <= i < j < |Toggled(ids)| ==> Toggled(ids)[i] != Toggled(ids)[j]
    decreases |ids|
  {
    if ids != [] {
      ToggledSelectionDistinct(ids[..|ids| - 1]);
      Selection.ToggleKeepsDistinct(Toggled(ids[..|ids| - 1]), ids[|ids| - 1]);
    }
  }
}
