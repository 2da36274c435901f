/**
 * The per-signer post-processing of a triphase batch (`SingleSignPostProcessor`):
 * the certificate chain is checked, the session data is cut down to the one
 * entry of the sign being completed, the pre-processor's post-sign or
 * post-co-sign entry point completes the signature, and the result is written
 * once to the temporary store.
 *
 * The pre-processor, the XML serialisation of the session data and the store
 * internals are not part of this model: the first two are uninterpreted fields
 * of `Collaborators`, the store is the log of the writes it receives.
 */
module SingleSignPostProcessor {
  import opened Common

  // ---------------------------------------------------------------------------
  // Session data (TriphaseData) and its cleaning
  // ---------------------------------------------------------------------------

  /** One session entry (TriSign): the sign id and its named parameters. */
  datatype TriSign = TriSign(id: string, dict: map<string, string>)

  /** Session data (TriphaseData): its entries in list order. */
  datatype TriphaseData = TriphaseData(signs: seq<TriSign>)

  /** The position of the first entry with the given id, or `|signs|` when there is none. */
  function IndexOf(signs: seq<TriSign>, id: string): (k: nat)
    ensures k <= |signs|
    ensures forall j :: 0 <= j < k ==> signs[j].id != id
    ensures k < |signs| ==> signs[k].id == id
    decreases |signs|
  {
    if signs == [] then 0
    else if signs[0].id == id then 0
    else 1 + IndexOf(signs[1..], id)
  }

  /** `getTriSign`: the first entry with the given id, or `None` (Java's `null`). */
  function GetTriSign(td: TriphaseData, id: string): (r: Option<TriSign>)
    ensures r.Some? ==> r.value in td.signs && r.value.id == id
    ensures r.None? <==> forall i :: 0 <= i < |td.signs| ==> td.signs[i].id != id
  {
    var k := IndexOf(td.signs, id);
    if k < |td.signs| then Some(td.signs[k]) else None
  }

  /** The argument errors and failures `doPostProcess` can end with. */
  datatype PostProcessError =
    | IllegalCertChain             // IllegalArgumentException: null or empty certificate chain
    | NullSessionData              // IllegalArgumentException: null session data
    | NoSessionEntry(signId: string) // IllegalArgumentException: no entry with the sign's id
    | PreProcessorUnavailable(cause: string) // exception thrown while selecting the pre-processor
    | UnsupportedOperation(op: SubOperation)
    | ProcessorFailure(cause: string) // exception thrown by the pre-processor, propagated

  /**
   * `cleanTriphaseData`: a new session document holding a copy of the entry
   * of `signId` and nothing else.
   */
  function CleanTriphaseData(td: Option<TriphaseData>, signId: string): (r: Result<TriphaseData, PostProcessError>)
    ensures td.None? ==> r == Err(NullSessionData)
    ensures td.Some? ==>
      (r.Err? <==> forall i :: 0 <= i < |td.value.signs| ==> td.value.signs[i].id != signId)
    ensures td.Some? && r.Err? ==> r.error == NoSessionEntry(signId)
    ensures r.Ok? ==> (
      && td.Some?
      && |r.value.signs| == 1
      && r.value.signs[0].id == signId
      && exists i :: 0 <= i < |td.value.signs| && td.value.signs[i] == r.value.signs[0] &&
           forall j :: 0 <= j < i ==> td.value.signs[j].id != signId)
  {
    if td.None? then Err(NullSessionData)
    else
      var found := GetTriSign(td.value, signId);
      if found.None? then Err(NoSessionEntry(signId))
      else
        var original := found.value;
        // the copy constructor: a new TriSign with the same id and a copy of the parameters
        var copy := TriSign(original.id, original.dict);
        assert td.value.signs[IndexOf(td.value.signs, signId)] == copy;
        Ok(TriphaseData([copy]))
  }

  /** The entry kept is the one `getTriSign` finds, so every other signer's entry is dropped. */
  lemma CleanKeepsOnlyOwnEntry(td: TriphaseData, signId: string, other: string)
    requires GetTriSign(td, signId).Some?
    requires other != signId
    ensures CleanTriphaseData(Some(td), signId) == Ok(TriphaseData([GetTriSign(td, signId).value]))
    ensures forall e :: e in CleanTriphaseData(Some(td), signId).value.signs ==> e.id != other
  {
  }

  /** Entries of other signers, before or after one's own, never reach the cleaned data. */
  lemma {:induction false} OtherSignersDoNotLeak(before: seq<TriSign>, mine: TriSign, after: seq<TriSign>)
    requires forall e :: e in before ==> e.id != mine.id
    ensures CleanTriphaseData(Some(TriphaseData(before + [mine] + after)), mine.id) == Ok(TriphaseData([mine]))
  {
    IndexPastOtherSigners(before, [mine] + after, mine.id);
    assert before + [mine] + after == before + ([mine] + after);
  }

  /** Skipping a prefix of entries with other ids. */
  lemma {:induction false} IndexPastOtherSigners(before: seq<TriSign>, rest: seq<TriSign>, id: string)
    requires forall e :: e in before ==> e.id != id
    ensures IndexOf(before + rest, id) == |before| + IndexOf(rest, id)
    decreases |before|
  {
    if before != [] {
      assert before[0] in before && (before + rest)[0] == before[0];
      assert (before + rest)[1..] == before[1..] + rest;
      assert forall e :: e in before[1..] ==> e in before;
      IndexPastOtherSigners(before[1..], rest, id);
    } else {
      assert before + rest == rest;
    }
  }

  /** Cleaning is idempotent: cleaned data cleaned again is unchanged. */
  lemma CleanIdempotent(td: Option<TriphaseData>, signId: string)
    requires CleanTriphaseData(td, signId).Ok?
    ensures CleanTriphaseData(Some(CleanTriphaseData(td, signId).value), signId) == CleanTriphaseData(td, signId)
  {
  }

  // ---------------------------------------------------------------------------
  // The sign, the pre-processor and the store
  // ---------------------------------------------------------------------------

  /** The sub-operation of a sign; `Other` stands for every value besides SIGN and COSIGN. */
  datatype SubOperation = Sign | CoSign | Other(name: string)

  /** A certificate of the chain, encoded. */
  type Certificate = Bytes

  /** The parts of a SingleSign that post-processing reads. */
  datatype SingleSign = SingleSign(
    id: string,
    data: Bytes,
    subOperation: SubOperation,
    format: string,
    extraParams: map<string, string>)

  /** The arguments of `preProcessPostSign` and `preProcessPostCoSign`. */
  datatype PostRequest = PostRequest(
    doc: Bytes,
    algorithm: string,
    certChain: seq<Certificate>,
    extraParams: map<string, string>,
    session: Bytes)

  /**
   * A TriPhasePreProcessor: its two post-processing entry points. `Err` is a
   * thrown exception; `Ok(None)` is a returned `null`, which is stored as it is.
   */
  datatype PreProcessor = PreProcessor(
    postSign: PostRequest -> Result<Option<Bytes>, string>,
    postCoSign: PostRequest -> Result<Option<Bytes>, string>)

  /**
   * `getTriPhasePreProcessor` (`Err` is a thrown exception), and the
   * serialisation of session data (`td.toString().getBytes()`).
   */
  datatype Collaborators = Collaborators(
    preProcessorFor: SingleSign -> Result<PreProcessor, string>,
    serialize: TriphaseData -> Bytes)

  /** One call of the store: the signed document (possibly `null`), the sign it belongs to, the batch. */
  datatype StoreWrite = StoreWrite(doc: Option<Bytes>, sign: SingleSign, batchId: string)

  /** The temporary store, seen as the log of the writes it has received. */
  class TempStore {
    var writes: seq<StoreWrite>

    constructor ()
      ensures writes == []
    {
      writes := [];
    }

    /** `store(signedDoc, sSign, batchId)`. */
    method Store(doc: Option<Bytes>, sign: SingleSign, batchId: string)
      modifies this
      ensures writes == old(writes) + [StoreWrite(doc, sign, batchId)]
    {
      writes := writes + [StoreWrite(doc, sign, batchId)];
    }
  }

  // ---------------------------------------------------------------------------
  // doPostProcess
  // ---------------------------------------------------------------------------

  /** The entry point the `switch` selects for SIGN or COSIGN, applied to the request. */
  function Complete(prep: PreProcessor, op: SubOperation, request: PostRequest): Result<Option<Bytes>, string>
    requires op == Sign || op == CoSign
  {
    if op == Sign then prep.postSign(request) else prep.postCoSign(request)
  }

  /** A pre-processor exception, propagated. */
  function Propagate(r: Result<Option<Bytes>, string>): Result<Option<Bytes>, PostProcessError>
  {
    match r
    case Ok(doc) => Ok(doc)
    case Err(cause) => Err(ProcessorFailure(cause))
  }

  /** The request an entry point receives: the cleaned session data, serialised. */
  function RequestFor(k: Collaborators, sSign: SingleSign, chain: seq<Certificate>, cleaned: TriphaseData, algorithm: string): PostRequest
  {
    PostRequest(sSign.data, algorithm, chain, sSign.extraParams, k.serialize(cleaned))
  }

  /** The document `doPostProcess` stores, or how it fails. */
  function PostProcess(k: Collaborators, sSign: SingleSign, certChain: Option<seq<Certificate>>, tdata: Option<TriphaseData>, algorithm: string): (r: Result<Option<Bytes>, PostProcessError>)
    ensures r.Ok? ==> (
      && certChain.Some? && certChain.value != []
      && tdata.Some? && GetTriSign(tdata.value, sSign.id).Some?
      && k.preProcessorFor(sSign).Ok?
      && (sSign.subOperation == Sign || sSign.subOperation == CoSign))
  {
    if certChain.None? || |certChain.value| < 1 then Err(IllegalCertChain)
    else
      match CleanTriphaseData(tdata, sSign.id)
      case Err(e) => Err(e)
      case Ok(cleaned) =>
        match k.preProcessorFor(sSign)
        case Err(cause) => Err(PreProcessorUnavailable(cause))
        case Ok(prep) =>
          var request := RequestFor(k, sSign, certChain.value, cleaned, algorithm);
          if sSign.subOperation.Other? then Err(UnsupportedOperation(sSign.subOperation))
          else Propagate(Complete(prep, sSign.subOperation, request))
  }

  /**
   * `doPostProcess`: the checks, the dispatch on the sub-operation, and one
   * store write on success; on every failure the store is left untouched.
   */
  method DoPostProcess(store: TempStore, k: Collaborators, sSign: SingleSign, certChain: Option<seq<Certificate>>,
                       tdata: Option<TriphaseData>, algorithm: string, batchId: string)
    returns (r: Result<(), PostProcessError>)
    modifies store
    ensures PostProcess(k, sSign, certChain, tdata, algorithm).Err? ==>
      r == Err(PostProcess(k, sSign, certChain, tdata, algorithm).error) && store.writes == old(store.writes)
    ensures PostProcess(k, sSign, certChain, tdata, algorithm).Ok? ==>
      r == Ok(()) &&
      store.writes == old(store.writes) + [StoreWrite(PostProcess(k, sSign, certChain, tdata, algorithm).value, sSign, batchId)]
  {
    if certChain.None? || |certChain.value| < 1 {
      return Err(IllegalCertChain);
    }
    var td := CleanTriphaseData(tdata, sSign.id);
    if td.Err? {
      return Err(td.error);
    }
    var prep := k.preProcessorFor(sSign);
    if prep.Err? {
      return Err(PreProcessorUnavailable(prep.error));
    }
    var docBytes := sSign.data;
    var request := PostRequest(docBytes, algorithm, certChain.value, sSign.extraParams, k.serialize(td.value));
    var signedDoc: Result<Option<Bytes>, string>;
    match sSign.subOperation {
      case Sign =>
        signedDoc := prep.value.postSign(request);
      case CoSign =>
        signedDoc := prep.value.postCoSign(request);
      case Other(_) =>
        return Err(UnsupportedOperation(sSign.subOperation));
    }
    if signedDoc.Err? {
      return Err(ProcessorFailure(signedDoc.error));
    }
    store.Store(signedDoc.value, sSign, batchId);
    return Ok(());
  }

  // ---------------------------------------------------------------------------
  // Properties of doPostProcess
  // ---------------------------------------------------------------------------

  /** A null or empty chain is rejected before the session data is looked at. */
  lemma IllegalChainRejectedFirst(k: Collaborators, sSign: SingleSign, certChain: Option<seq<Certificate>>, tdata: Option<TriphaseData>, algorithm: string)
    requires certChain.None? || certChain.value == []
    ensures PostProcess(k, sSign, certChain, tdata, algorithm) == Err(IllegalCertChain)
  {
  }

  /** With a usable chain, null session data or a missing entry is an argument error. */
  lemma SessionDataRequired(k: Collaborators, sSign: SingleSign, chain: seq<Certificate>, tdata: Option<TriphaseData>, algorithm: string)
    requires chain != []
    ensures tdata.None? ==> PostProcess(k, sSign, Some(chain), tdata, algorithm) == Err(NullSessionData)
    ensures tdata.Some? && (forall i :: 0 <= i < |tdata.value.signs| ==> tdata.value.signs[i].id != sSign.id) ==>
      PostProcess(k, sSign, Some(chain), tdata, algorithm) == Err(NoSessionEntry(sSign.id))
  {
  }

  /**
   * SIGN goes to the post-sign entry point and COSIGN to the post-co-sign one,
   * each given the single cleaned entry; any other sub-operation is unsupported.
   */
  lemma DispatchUsesCleanedEntry(k: Collaborators, sSign: SingleSign, chain: seq<Certificate>, td: TriphaseData, algorithm: string, prep: PreProcessor)
    requires chain != []
    requires GetTriSign(td, sSign.id).Some?
    requires k.preProcessorFor(sSign) == Ok(prep)
    ensures var request := RequestFor(k, sSign, chain, TriphaseData([GetTriSign(td, sSign.id).value]), algorithm);
      && (sSign.subOperation == Sign ==>
            PostProcess(k, sSign, Some(chain), Some(td), algorithm) == Propagate(prep.postSign(request)))
      && (sSign.subOperation == CoSign ==>
            PostProcess(k, sSign, Some(chain), Some(td), algorithm) == Propagate(prep.postCoSign(request)))
      && (sSign.subOperation.Other? ==>
            PostProcess(k, sSign, Some(chain), Some(td), algorithm) == Err(UnsupportedOperation(sSign.subOperation)))
  {
  }

  /**
   * The pre-processor is selected before the sub-operation is examined: a
   * failure to select it is the outcome, even for an unsupported sub-operation.
   */
  lemma PreProcessorSelectedBeforeDispatch(k: Collaborators, sSign: SingleSign, chain: seq<Certificate>, td: TriphaseData, algorithm: string)
    requires chain != []
    requires GetTriSign(td, sSign.id).Some?
    requires k.preProcessorFor(sSign).Err?
    ensures PostProcess(k, sSign, Some(chain), Some(td), algorithm) == Err(PreProcessorUnavailable(k.preProcessorFor(sSign).error))
  {
  }

  /**
   * No cross-signer leakage: two session documents that hold the same entry
   * for this sign give the same outcome, whatever other entries they hold.
   */
  lemma NoCrossSignerLeakage(k: Collaborators, sSign: SingleSign, certChain: Option<seq<Certificate>>, td1: TriphaseData, td2: TriphaseData, algorithm: string)
    requires GetTriSign(td1, sSign.id) == GetTriSign(td2, sSign.id)
    ensures PostProcess(k, sSign, certChain, Some(td1), algorithm) == PostProcess(k, sSign, certChain, Some(td2), algorithm)
  {
  }

  /**
   * An exception from the SIGN or COSIGN entry point is the outcome, carrying
   * that exception, so nothing is stored.
   */
  lemma ProcessorFailurePropagates(k: Collaborators, sSign: SingleSign, chain: seq<Certificate>, td: TriphaseData, algorithm: string, prep: PreProcessor)
    requires chain != []
    requires sSign.subOperation == Sign || sSign.subOperation == CoSign
    requires GetTriSign(td, sSign.id).Some?
    requires k.preProcessorFor(sSign) == Ok(prep)
    requires Complete(prep, sSign.subOperation, RequestFor(k, sSign, chain, TriphaseData([GetTriSign(td, sSign.id).value]), algorithm)).Err?
    ensures PostProcess(k, sSign, Some(chain), Some(td), algorithm) ==
      Err(ProcessorFailure(Complete(prep, sSign.subOperation, RequestFor(k, sSign, chain, TriphaseData([GetTriSign(td, sSign.id).value]), algorithm)).error))
  {
  }
}
