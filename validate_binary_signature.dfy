/**
 * The verdict logic of `ValidateBinarySignature`: a CMS (RFC 5652) or CAdES
 * (ETSI TS 101 733) signature is recognised, the data to check it against is
 * chosen, every SignerInfo is verified and its message digest compared, and the
 * certificate and CRL collections of the SignedData are compared by size.
 *
 * Parsing, certificate lookup, signature verification and hashing belong to the
 * cryptographic provider; they are the uninterpreted fields of `Signers` and `Provider`, so
 * every property below holds whatever the provider does.
 */
module ValidateBinarySignature {
  import opened Common

  // ---------------------------------------------------------------------------
  // The verdict (SignValidity)
  // ---------------------------------------------------------------------------

  /** SIGN_DETAIL_TYPE. */
  datatype DetailType = OK | KO | UNKNOWN

  /** The VALIDITY_ERROR values this validator can report. */
  datatype ValidityError =
    | CertificateProblem
    | CertificateExpired
    | CertificateNotValidYet
    | AlgorithmNotSupported
    | NoMatchData
    | CrlProblem
    | NoData

  /** SignValidity: a detail type and an error that Java leaves `null` when there is none. */
  datatype SignValidity = SignValidity(detail: DetailType, error: Option<ValidityError>)

  /** The caller error thrown instead of a verdict (a NullPointerException). */
  datatype CallerError = NullSignature

  /**
   * The exceptions that can leave `verifySignatures`, one per catch clause of
   * `validate`; `OtherException` is everything the final `catch (Exception)`
   * takes: a CMSException, a failed signature check, an empty certificate
   * lookup, a failed data extraction.
   */
  datatype Exception =
    | CertStoreException
    | CertificateExpiredException
    | CertificateNotYetValidException
    | NoSuchAlgorithmException
    | NoMatchDataException
    | CrlException
    | OtherException

  // ---------------------------------------------------------------------------
  // The signature container and its collaborators
  // ---------------------------------------------------------------------------

  /** The two signers tried for format recognition, in the order they are tried. */
  datatype Format = CMS | CAdES

  /** An object identifier in its dotted string form. */
  type Oid = string

  /** A SignerIdentifier (issuer and serial number, or subject key identifier), encoded. */
  type SignerId = Bytes

  /** An X.509 certificate, encoded. */
  type Certificate = Bytes

  /** One SignerInfo: its sid, its digest algorithm (possibly absent) and its message-digest attribute. */
  datatype SignerRecord = SignerRecord(sid: SignerId, digestAlgorithm: Option<Oid>, contentDigest: Bytes)

  /**
   * A parsed SignedData: its SignerInfos in iteration order, and the sizes of
   * the certificate and CRL collections as seen through the CertStore built by
   * `getCertificatesAndCRLs` and through the `getCertificates`/`getCRLs` stores.
   */
  datatype Container = Container(
    signers: seq<SignerRecord>,
    storeCertificates: nat,
    listedCertificates: nat,
    storeCrls: nat,
    listedCrls: nat)

  /** The outcome of `certStore.getCertificates(sid)` followed by `next()`. */
  datatype CertificateLookup = StoreUnreadable | NoCertificate | Found(cert: Certificate)

  /** The outcome of `SignerInformation.verify`. */
  datatype SignatureCheck = Verified | NotVerified | Expired | NotYetValid | UnknownAlgorithm | Malformed

  /** The outcome of `getData` on the recognised signer. */
  datatype EmbeddedData = Embedded(content: Bytes) | NoEmbeddedData | ExtractionFailed

  /** The digest names the OID table can produce. */
  datatype DigestName = MD2 | MD5 | SHA1 | SHA256 | SHA384 | SHA512

  /** The AOSigner collaborators tried for recognition: `isSign` and `getData`. */
  datatype Signers = Signers(
    isSign: (Format, Bytes) -> bool,
    getData: (Format, Bytes) -> EmbeddedData)

  /**
   * The cryptographic provider: SignedData parsing (the `CMSSignedData`
   * constructor), certificate lookup by sid, signer verification and hashing.
   */
  datatype Provider = Provider(
    parse: Bytes -> Option<Container>,
    certificates: (Container, SignerId) -> CertificateLookup,
    verify: (Container, SignerRecord, Certificate) -> SignatureCheck,
    digest: (DigestName, Bytes) -> Bytes)

  // ---------------------------------------------------------------------------
  // The digest-algorithm table
  // ---------------------------------------------------------------------------

  /** The OID of each digest name, as the AlgorithmId constants give them. */
  function OidOf(n: DigestName): Oid
  {
    match n
    case MD2 => "1.2.840.113549.2.2"
    case MD5 => "1.2.840.113549.2.5"
    case SHA1 => "1.3.14.3.2.26"
    case SHA256 => "2.16.840.1.101.3.4.2.1"
    case SHA384 => "2.16.840.1.101.3.4.2.2"
    case SHA512 => "2.16.840.1.101.3.4.2.3"
  }

  /** The closed OID-to-name chain; `None` is the NoSuchAlgorithmException. */
  function DigestNameOf(oid: Oid): (r: Option<DigestName>)
    ensures r.Some? ==> OidOf(r.value) == oid
    ensures r.None? ==> forall n: DigestName :: OidOf(n) != oid
  {
    if oid == OidOf(MD2) then Some(MD2)
    else if oid == OidOf(MD5) then Some(MD5)
    else if oid == OidOf(SHA1) then Some(SHA1)
    else if oid == OidOf(SHA256) then Some(SHA256)
    else if oid == OidOf(SHA384) then Some(SHA384)
    else if oid == OidOf(SHA512) then Some(SHA512)
    else None
  }

  /** Every name of the table is found again from its own OID. */
  lemma DigestTableRoundTrip(n: DigestName)
    ensures DigestNameOf(OidOf(n)) == Some(n)
  {
  }

  // ---------------------------------------------------------------------------
  // From exceptions to verdicts
  // ---------------------------------------------------------------------------

  /** The catch clauses of `validate`. */
  function VerdictOf(e: Exception): (v: SignValidity)
    ensures v.detail == KO
    ensures v.error.None? <==> e == OtherException
  {
    match e
    case CertStoreException => SignValidity(KO, Some(CertificateProblem))
    case CertificateExpiredException => SignValidity(KO, Some(CertificateExpired))
    case CertificateNotYetValidException => SignValidity(KO, Some(CertificateNotValidYet))
    case NoSuchAlgorithmException => SignValidity(KO, Some(AlgorithmNotSupported))
    case NoMatchDataException => SignValidity(KO, Some(NoMatchData))
    case CrlException => SignValidity(KO, Some(CrlProblem))
    case OtherException => SignValidity(KO, None)
  }

  /** Distinct exceptions give distinct verdicts: no catch clause hides another. */
  lemma VerdictOfInjective(e1: Exception, e2: Exception)
    requires VerdictOf(e1) == VerdictOf(e2)
    ensures e1 == e2
  {
  }

  /** The verdict of a `verifySignatures` call: OK when it returns normally. */
  function VerdictFor(thrown: Option<Exception>): SignValidity
  {
    if thrown.None? then SignValidity(OK, None) else VerdictOf(thrown.value)
  }


  // ---------------------------------------------------------------------------
  // verifySignatures
  // ---------------------------------------------------------------------------

  /** What one pass of the signer loop throws, or `None` when the signer passes. */
  function CheckSigner(p: Provider, c: Container, s: SignerRecord, data: Option<Bytes>): (r: Option<Exception>)
    ensures data.None? ==>
      (r.None? <==> p.certificates(c, s.sid).Found? && p.verify(c, s, p.certificates(c, s.sid).cert) == Verified)
  {
    match p.certificates(c, s.sid)
    case StoreUnreadable => Some(CertStoreException)
    case NoCertificate => Some(OtherException)
    case Found(cert) =>
      match p.verify(c, s, cert)
      case NotVerified => Some(OtherException)
      case Expired => Some(CertificateExpiredException)
      case NotYetValid => Some(CertificateNotYetValidException)
      case UnknownAlgorithm => Some(NoSuchAlgorithmException)
      case Malformed => Some(OtherException)
      case Verified =>
        if data.None? then None
        else if s.digestAlgorithm.None? then Some(OtherException)
        else
          match DigestNameOf(s.digestAlgorithm.value)
          case None => Some(NoSuchAlgorithmException)
          case Some(name) =>
            if p.digest(name, data.value) == s.contentDigest then None
            else Some(NoMatchDataException)
  }

  /** The exception of the first signer, in iteration order, that does not pass. */
  function FirstSignerFailure(p: Provider, c: Container, signers: seq<SignerRecord>, data: Option<Bytes>): (r: Option<Exception>)
    ensures r.Some? ==> exists i :: 0 <= i < |signers| && CheckSigner(p, c, signers[i], data) == r
    ensures signers != [] && CheckSigner(p, c, signers[0], data).Some? ==> r == CheckSigner(p, c, signers[0], data)
    decreases |signers|
  {
    if signers == [] then None
    else if CheckSigner(p, c, signers[0], data).Some? then CheckSigner(p, c, signers[0], data)
    else FirstSignerFailure(p, c, signers[1..], data)
  }

  /** The two size comparisons made once every signer has passed, certificates first. */
  function StoreStructureCheck(c: Container): (r: Option<Exception>)
    ensures r.None? <==> c.storeCertificates == c.listedCertificates && c.storeCrls == c.listedCrls
    ensures r == Some(CrlException) ==> c.storeCertificates == c.listedCertificates
    ensures r.Some? ==> r.value == CertStoreException || r.value == CrlException
    ensures c.storeCertificates != c.listedCertificates ==> r == Some(CertStoreException)
    ensures c.storeCertificates == c.listedCertificates && c.storeCrls != c.listedCrls ==> r == Some(CrlException)
  {
    if c.storeCertificates != c.listedCertificates then Some(CertStoreException)
    else if c.storeCrls != c.listedCrls then Some(CrlException)
    else None
  }

  /** What `verifySignatures(sign, data)` throws, or `None` when it returns. */
  function Verification(p: Provider, sign: Bytes, data: Option<Bytes>): (r: Option<Exception>)
    ensures p.parse(sign).None? ==> r == Some(OtherException)
    ensures r.None? ==> (
      && p.parse(sign).Some?
      && p.parse(sign).value.storeCertificates == p.parse(sign).value.listedCertificates
      && p.parse(sign).value.storeCrls == p.parse(sign).value.listedCrls)
  {
    match p.parse(sign)
    case None => Some(OtherException)
    case Some(c) =>
      var signerFailure := FirstSignerFailure(p, c, c.signers, data);
      if signerFailure.Some? then signerFailure else StoreStructureCheck(c)
  }

  /** The signer loop of `verifySignatures`, leaving at the first exception. */
  method VerifySignatures(p: Provider, sign: Bytes, data: Option<Bytes>) returns (thrown: Option<Exception>)
    ensures thrown == Verification(p, sign, data)
  {
    var parsed := p.parse(sign);
    if parsed.None? {
      return Some(OtherException);
    }
    var c := parsed.value;
    var i := 0;
    while i < |c.signers|
      invariant 0 <= i <= |c.signers|
      invariant FirstSignerFailure(p, c, c.signers, data) == FirstSignerFailure(p, c, c.signers[i..], data)
    {
      var signer := c.signers[i];
      assert c.signers[i..][0] == signer && c.signers[i..][1..] == c.signers[i + 1..];
      var lookup := p.certificates(c, signer.sid);
      if lookup.StoreUnreadable? {
        return Some(CertStoreException);
      }
      if lookup.NoCertificate? {
        return Some(OtherException);
      }
      var check := p.verify(c, signer, lookup.cert);
      if check.NotVerified? || check.Malformed? {
        return Some(OtherException);
      } else if check.Expired? {
        return Some(CertificateExpiredException);
      } else if check.NotYetValid? {
        return Some(CertificateNotYetValidException);
      } else if check.UnknownAlgorithm? {
        return Some(NoSuchAlgorithmException);
      }
      if data.Some? {
        if signer.digestAlgorithm.None? {
          return Some(OtherException);
        }
        var name := DigestNameOf(signer.digestAlgorithm.value);
        if name.None? {
          return Some(NoSuchAlgorithmException);
        }
        if p.digest(name.value, data.value) != signer.contentDigest {
          return Some(NoMatchDataException);
        }
      }
      i := i + 1;
    }
    if c.storeCertificates != c.listedCertificates {
      return Some(CertStoreException);
    }
    if c.storeCrls != c.listedCrls {
      return Some(CrlException);
    }
    return None;
  }

  // ---------------------------------------------------------------------------
  // validate
  // ---------------------------------------------------------------------------

  /** The first signer, CMS then CAdES, whose `isSign` accepts the bytes. */
  function RecognisedFormat(sg: Signers, sign: Bytes): (r: Option<Format>)
    ensures r.None? <==> !sg.isSign(CMS, sign) && !sg.isSign(CAdES, sign)
    ensures r == Some(CAdES) ==> !sg.isSign(CMS, sign)
    ensures sg.isSign(CMS, sign) ==> r == Some(CMS)
    ensures !sg.isSign(CMS, sign) && sg.isSign(CAdES, sign) ==> r == Some(CAdES)
  {
    if sg.isSign(CMS, sign) then Some(CMS)
    else if sg.isSign(CAdES, sign) then Some(CAdES)
    else None
  }

  /** The data the signature is checked against. */
  datatype DataSelection = Selected(content: Bytes) | Absent | Failed

  /** Supplied data if there is any, otherwise the data embedded in the signature. */
  function SelectData(sg: Signers, format: Format, sign: Bytes, data: Option<Bytes>): (r: DataSelection)
    ensures data.Some? ==> r == Selected(data.value)
    ensures r.Absent? || r.Failed? ==> data.None?
    ensures data.None? && sg.getData(format, sign).Embedded? ==> r == Selected(sg.getData(format, sign).content)
    ensures data.None? && sg.getData(format, sign).NoEmbeddedData? ==> r == Absent
    ensures data.None? && sg.getData(format, sign).ExtractionFailed? ==> r == Failed
  {
    if data.Some? then Selected(data.value)
    else
      match sg.getData(format, sign)
      case Embedded(content) => Selected(content)
      case NoEmbeddedData => Absent
      case ExtractionFailed => Failed
  }

  /** `validate(sign, data)`, with Java's `null` as `None`. */
  function Validate(sg: Signers, p: Provider, sign: Option<Bytes>, data: Option<Bytes>): (r: Result<SignValidity, CallerError>)
    ensures r.Err? <==> sign.None?
    ensures r.Ok? && r.value.detail == OK ==> r.value.error.None?
    ensures r.Ok? && r.value.detail == UNKNOWN ==> r.value.error == Some(NoData) && data.None?
    ensures r.Ok? && r.value.detail == KO ==> r.value.error != Some(NoData)
  {
    if sign.None? then Err(NullSignature)
    else
      match RecognisedFormat(sg, sign.value)
      case None => Ok(SignValidity(KO, None))
      case Some(format) =>
        match SelectData(sg, format, sign.value, data)
        case Absent => Ok(SignValidity(UNKNOWN, Some(NoData)))
        case Failed => Ok(VerdictOf(OtherException))
        case Selected(content) => Ok(VerdictFor(Verification(p, sign.value, Some(content))))
  }

  // ---------------------------------------------------------------------------
  // Properties of the signer loop
  // ---------------------------------------------------------------------------

  /** Everything a signer must satisfy, against data `d`, to pass the loop. */
  ghost predicate SignerAccepted(p: Provider, c: Container, s: SignerRecord, d: Bytes)
  {
    && p.certificates(c, s.sid).Found?
    && p.verify(c, s, p.certificates(c, s.sid).cert) == Verified
    && s.digestAlgorithm.Some?
    && DigestNameOf(s.digestAlgorithm.value).Some?
    && p.digest(DigestNameOf(s.digestAlgorithm.value).value, d) == s.contentDigest
  }

  /** With data, a signer passes exactly when it is accepted. */
  lemma CheckSignerPasses(p: Provider, c: Container, s: SignerRecord, d: Bytes)
    ensures CheckSigner(p, c, s, Some(d)) == None <==> SignerAccepted(p, c, s, d)
  {
  }

  /** How each way a signer can fail is reported, once caught by `validate`. */
  lemma SignerFailureVerdicts(p: Provider, c: Container, s: SignerRecord, d: Bytes)
    ensures p.certificates(c, s.sid).StoreUnreadable? ==>
      VerdictFor(CheckSigner(p, c, s, Some(d))) == SignValidity(KO, Some(CertificateProblem))
    ensures p.certificates(c, s.sid).NoCertificate? ==>
      VerdictFor(CheckSigner(p, c, s, Some(d))) == SignValidity(KO, None)
    ensures p.certificates(c, s.sid).Found? && p.verify(c, s, p.certificates(c, s.sid).cert) == NotVerified ==>
      VerdictFor(CheckSigner(p, c, s, Some(d))) == SignValidity(KO, None)
    ensures p.certificates(c, s.sid).Found? && p.verify(c, s, p.certificates(c, s.sid).cert) == Expired ==>
      VerdictFor(CheckSigner(p, c, s, Some(d))) == SignValidity(KO, Some(CertificateExpired))
    ensures p.certificates(c, s.sid).Found? && p.verify(c, s, p.certificates(c, s.sid).cert) == NotYetValid ==>
      VerdictFor(CheckSigner(p, c, s, Some(d))) == SignValidity(KO, Some(CertificateNotValidYet))
    ensures p.certificates(c, s.sid).Found? && p.verify(c, s, p.certificates(c, s.sid).cert) == UnknownAlgorithm ==>
      VerdictFor(CheckSigner(p, c, s, Some(d))) == SignValidity(KO, Some(AlgorithmNotSupported))
    ensures p.certificates(c, s.sid).Found? && p.verify(c, s, p.certificates(c, s.sid).cert) == Malformed ==>
      VerdictFor(CheckSigner(p, c, s, Some(d))) == SignValidity(KO, None)
    ensures p.certificates(c, s.sid).Found? && p.verify(c, s, p.certificates(c, s.sid).cert) == Verified ==>
      && (s.digestAlgorithm.None? ==>
            VerdictFor(CheckSigner(p, c, s, Some(d))) == SignValidity(KO, None))
      && (s.digestAlgorithm.Some? && DigestNameOf(s.digestAlgorithm.value).None? ==>
            VerdictFor(CheckSigner(p, c, s, Some(d))) == SignValidity(KO, Some(AlgorithmNotSupported)))
      && (s.digestAlgorithm.Some? && DigestNameOf(s.digestAlgorithm.value).Some? &&
          p.digest(DigestNameOf(s.digestAlgorithm.value).value, d) != s.contentDigest ==>
            VerdictFor(CheckSigner(p, c, s, Some(d))) == SignValidity(KO, Some(NoMatchData)))
  {
  }

  /** The loop returns normally exactly when every signer passes. */
  lemma {:induction false} FirstSignerFailureNone(p: Provider, c: Container, signers: seq<SignerRecord>, data: Option<Bytes>)
    ensures FirstSignerFailure(p, c, signers, data).None? <==>
      forall i :: 0 <= i < |signers| ==> CheckSigner(p, c, signers[i], data).None?
    decreases |signers|
  {
    if signers != [] {
      FirstSignerFailureNone(p, c, signers[1..], data);
      assert forall i :: 1 <= i < |signers| ==> signers[i] == signers[1..][i - 1];
    }
  }

  /** The first signer that fails decides the exception, whatever the signers after it hold. */
  lemma {:induction false} FailingSignerDecides(p: Provider, c: Container, signers: seq<SignerRecord>, data: Option<Bytes>, k: nat)
    requires k < |signers|
    requires forall j :: 0 <= j < k ==> CheckSigner(p, c, signers[j], data).None?
    requires CheckSigner(p, c, signers[k], data).Some?
    ensures FirstSignerFailure(p, c, signers, data) == CheckSigner(p, c, signers[k], data)
    decreases k
  {
    if k > 0 {
      assert forall j :: 0 <= j < k - 1 ==> signers[1..][j] == signers[j + 1];
      FailingSignerDecides(p, c, signers[1..], data, k - 1);
    }
  }

  /** Every exception of the loop is that of some signer all of whose predecessors passed. */
  lemma {:induction false} FailureComesFromFirstFailingSigner(p: Provider, c: Container, signers: seq<SignerRecord>, data: Option<Bytes>)
    requires FirstSignerFailure(p, c, signers, data).Some?
    ensures exists k :: (0 <= k < |signers| &&
      CheckSigner(p, c, signers[k], data) == FirstSignerFailure(p, c, signers, data) &&
      forall j :: 0 <= j < k ==> CheckSigner(p, c, signers[j], data).None?)
    decreases |signers|
  {
    if CheckSigner(p, c, signers[0], data).Some? {
      assert CheckSigner(p, c, signers[0], data) == FirstSignerFailure(p, c, signers, data);
    } else {
      FailureComesFromFirstFailingSigner(p, c, signers[1..], data);
      var k :| 0 <= k < |signers[1..]| &&
        CheckSigner(p, c, signers[1..][k], data) == FirstSignerFailure(p, c, signers[1..], data) &&
        forall j :: 0 <= j < k ==> CheckSigner(p, c, signers[1..][j], data).None?;
      assert signers[1..][k] == signers[k + 1];
      assert forall j :: 1 <= j < k + 1 ==> signers[j] == signers[1..][j - 1];
    }
  }

  /** Once a prefix of the signers fails, the signers after it are never examined. */
  lemma {:induction false} LaterSignersNotExamined(p: Provider, c: Container, first: seq<SignerRecord>, rest: seq<SignerRecord>, data: Option<Bytes>)
    requires FirstSignerFailure(p, c, first, data).Some?
    ensures FirstSignerFailure(p, c, first + rest, data) == FirstSignerFailure(p, c, first, data)
    decreases |first|
  {
    assert (first + rest)[0] == first[0];
    if CheckSigner(p, c, first[0], data).None? {
      assert (first + rest)[1..] == first[1..] + rest;
      LaterSignersNotExamined(p, c, first[1..], rest, data);
    }
  }

  // ---------------------------------------------------------------------------
  // Properties of validate
  // ---------------------------------------------------------------------------

  /** A null signature is a caller error, raised before any collaborator is consulted. */
  lemma NullSignatureIsCallerError(sg: Signers, p: Provider, data: Option<Bytes>)
    ensures Validate(sg, p, None, data) == Err(NullSignature)
  {
  }

  /**
   * Bytes that neither the CMS nor the CAdES signer recognises are KO without
   * detail, for every provider: no verification is attempted.
   */
  lemma UnrecognisedIsKo(sg: Signers, p: Provider, sign: Bytes, data: Option<Bytes>)
    requires !sg.isSign(CMS, sign) && !sg.isSign(CAdES, sign)
    ensures Validate(sg, p, Some(sign), data) == Ok(SignValidity(KO, None))
  {
  }

  /** CMS is tried first: bytes it recognises get the same verdict whatever the CAdES signer says. */
  lemma CmsTriedFirst(sg: Signers, p: Provider, sign: Bytes, data: Option<Bytes>, cades: Bytes -> bool)
    requires sg.isSign(CMS, sign)
    ensures RecognisedFormat(sg, sign) == Some(CMS)
    ensures Validate(sg, p, Some(sign), data) ==
      Validate(sg.(isSign := (f: Format, s: Bytes) => if f == CAdES then cades(s) else sg.isSign(f, s)), p, Some(sign), data)
  {
  }

  /**
   * With no supplied data and nothing embedded, the verdict is UNKNOWN with
   * NO_DATA for every provider: verification is never reached.
   */
  lemma NoDataIsUnknown(sg: Signers, p: Provider, sign: Bytes)
    requires RecognisedFormat(sg, sign).Some?
    requires sg.getData(RecognisedFormat(sg, sign).value, sign) == NoEmbeddedData
    ensures Validate(sg, p, Some(sign), None) == Ok(SignValidity(UNKNOWN, Some(NoData)))
  {
  }

  /**
   * Without supplied data, the content embedded in the signature is what the
   * signers are verified against, extracted by the signer that recognised it.
   */
  lemma EmbeddedDataIsChecked(sg: Signers, p: Provider, sign: Bytes, f: Format, e: Bytes)
    requires f == CMS ==> sg.isSign(CMS, sign)
    requires f == CAdES ==> !sg.isSign(CMS, sign) && sg.isSign(CAdES, sign)
    requires sg.getData(f, sign) == Embedded(e)
    ensures Validate(sg, p, Some(sign), None) == Ok(VerdictFor(Verification(p, sign, Some(e))))
  {
  }

  /**
   * Without supplied data, an exception while extracting the embedded content
   * falls to the final catch: KO with no detail, for every provider.
   */
  lemma ExtractionFailureIsKo(sg: Signers, p: Provider, sign: Bytes)
    requires RecognisedFormat(sg, sign).Some?
    requires sg.getData(RecognisedFormat(sg, sign).value, sign) == ExtractionFailed
    ensures Validate(sg, p, Some(sign), None) == Ok(SignValidity(KO, None))
  {
  }

  /**
   * Bytes a signer recognises but the provider cannot parse as SignedData
   * (a CMSException) fall to the final catch: KO with no detail.
   */
  lemma UnparseableIsKo(sg: Signers, p: Provider, sign: Bytes, data: Option<Bytes>)
    requires RecognisedFormat(sg, sign).Some?
    requires SelectData(sg, RecognisedFormat(sg, sign).value, sign, data).Selected?
    requires p.parse(sign).None?
    ensures Validate(sg, p, Some(sign), data) == Ok(SignValidity(KO, None))
  {
  }

  /**
   * Supplied data takes precedence: the embedded data is not consulted, and
   * the verification gets the supplied bytes, so the digests are compared.
   */
  lemma SuppliedDataTakesPrecedence(sg: Signers, p: Provider, sign: Bytes, data: Bytes, getData: (Format, Bytes) -> EmbeddedData)
    requires RecognisedFormat(sg, sign).Some?
    ensures Validate(sg, p, Some(sign), Some(data)) == Ok(VerdictFor(Verification(p, sign, Some(data))))
    ensures Validate(sg.(getData := getData), p, Some(sign), Some(data)) == Validate(sg, p, Some(sign), Some(data))
  {
  }

  /**
   * With data `d` to check against, the first signer in iteration order that
   * fails decides the verdict; the signers after it and the store sizes do not matter.
   */
  lemma FirstFailingSignerDecidesVerdict(sg: Signers, p: Provider, sign: Bytes, data: Option<Bytes>, c: Container, d: Bytes, k: nat)
    requires RecognisedFormat(sg, sign).Some?
    requires SelectData(sg, RecognisedFormat(sg, sign).value, sign, data) == Selected(d)
    requires p.parse(sign) == Some(c)
    requires k < |c.signers|
    requires forall j :: 0 <= j < k ==> CheckSigner(p, c, c.signers[j], Some(d)).None?
    requires CheckSigner(p, c, c.signers[k], Some(d)).Some?
    ensures Validate(sg, p, Some(sign), data) == Ok(VerdictOf(CheckSigner(p, c, c.signers[k], Some(d)).value))
  {
    FailingSignerDecides(p, c, c.signers, Some(d), k);
  }

  /**
   * The store sizes are compared only once every signer is accepted, the
   * certificates before the CRLs.
   */
  lemma StoreChecksFollowSigners(sg: Signers, p: Provider, sign: Bytes, data: Option<Bytes>, c: Container, d: Bytes)
    requires RecognisedFormat(sg, sign).Some?
    requires SelectData(sg, RecognisedFormat(sg, sign).value, sign, data) == Selected(d)
    requires p.parse(sign) == Some(c)
    requires forall k :: 0 <= k < |c.signers| ==> SignerAccepted(p, c, c.signers[k], d)
    ensures c.storeCertificates != c.listedCertificates ==>
      Validate(sg, p, Some(sign), data) == Ok(SignValidity(KO, Some(CertificateProblem)))
    ensures c.storeCertificates == c.listedCertificates && c.storeCrls != c.listedCrls ==>
      Validate(sg, p, Some(sign), data) == Ok(SignValidity(KO, Some(CrlProblem)))
  {
    forall k | 0 <= k < |c.signers| ensures CheckSigner(p, c, c.signers[k], Some(d)).None? {
      CheckSignerPasses(p, c, c.signers[k], d);
    }
    FirstSignerFailureNone(p, c, c.signers, Some(d));
  }

  /**
   * A SignedData without SignerInfos skips the signer loop: its verdict is
   * decided by the two size comparisons alone, and is OK when both agree.
   */
  lemma NoSignersDecidedBySizes(sg: Signers, p: Provider, sign: Bytes, data: Option<Bytes>, c: Container, d: Bytes)
    requires RecognisedFormat(sg, sign).Some?
    requires SelectData(sg, RecognisedFormat(sg, sign).value, sign, data) == Selected(d)
    requires p.parse(sign) == Some(c)
    requires c.signers == []
    ensures Validate(sg, p, Some(sign), data) == Ok(VerdictFor(StoreStructureCheck(c)))
    ensures c.storeCertificates == c.listedCertificates && c.storeCrls == c.listedCrls ==>
      Validate(sg, p, Some(sign), data) == Ok(SignValidity(OK, None))
  {
  }

  /** Every check that must pass for OK: all signers accepted, then both store sizes equal. */
  ghost predicate AllChecksPass(p: Provider, c: Container, d: Bytes)
  {
    && (forall k :: 0 <= k < |c.signers| ==> SignerAccepted(p, c, c.signers[k], d))
    && c.storeCertificates == c.listedCertificates
    && c.storeCrls == c.listedCrls
  }

  /** OK (with no error) is returned exactly when every check passes; no other path gives OK. */
  lemma OkExactlyWhenAllChecksPass(sg: Signers, p: Provider, sign: Bytes, data: Option<Bytes>)
    ensures Validate(sg, p, Some(sign), data) == Ok(SignValidity(OK, None)) <==>
      && RecognisedFormat(sg, sign).Some?
      && SelectData(sg, RecognisedFormat(sg, sign).value, sign, data).Selected?
      && p.parse(sign).Some?
      && AllChecksPass(p, p.parse(sign).value, SelectData(sg, RecognisedFormat(sg, sign).value, sign, data).content)
    ensures Validate(sg, p, Some(sign), data).Ok? && Validate(sg, p, Some(sign), data).value.detail == OK ==>
      Validate(sg, p, Some(sign), data).value.error.None?
  {
    var format := RecognisedFormat(sg, sign);
    if format.Some? && SelectData(sg, format.value, sign, data).Selected? && p.parse(sign).Some? {
      var c := p.parse(sign).value;
      var d := SelectData(sg, format.value, sign, data).content;
      FirstSignerFailureNone(p, c, c.signers, Some(d));
      forall k | 0 <= k < |c.signers|
        ensures CheckSigner(p, c, c.signers[k], Some(d)).None? <==> SignerAccepted(p, c, c.signers[k], d)
      {
        CheckSignerPasses(p, c, c.signers[k], d);
      }
    }
  }
}
