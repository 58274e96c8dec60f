/** Identity value types that the template data container stores: the subject
    distinguished name, subject alternative names, the template-facing view of a
    certificate request, and the two foreign functions that build them. */
module Identity {

  /** An X.509 distinguished name. The common name is a single string; the
      other attributes are lists of strings, carried through unchanged. */
  datatype Subject = Subject(
    commonName: string,
    country: seq<string>,
    organization: seq<string>,
    organizationalUnit: seq<string>,
    locality: seq<string>,
    province: seq<string>,
    serialNumber: string)

  /** Every attribute other than the common name holds its zero value. */
  predicate OnlyCommonName(s: Subject)
  {
    && s.country == []
    && s.organization == []
    && s.organizationalUnit == []
    && s.locality == []
    && s.province == []
    && s.serialNumber == ""
  }

  /** The composite literal `Subject{CommonName: c}`. */
  function SubjectWithCommonName(c: string): (s: Subject)
    ensures s.commonName == c && OnlyCommonName(s)
    ensures forall t: Subject :: t.commonName == c && OnlyCommonName(t) ==> t == s
  {
    Subject(c, [], [], [], [], [], "")
  }

  /** One subject alternative name: its kind (DNS, IP, email, URI) and its text. */
  datatype SAN = SAN(kind: string, value: string)

  /** A parsed PKCS#10 request, kept abstract: only its DER encoding is visible. */
  datatype X509Request = X509Request(raw: seq<bv8>)

  /** The template-facing projection of a parsed certificate request. */
  datatype CertificateRequest = CertificateRequest(
    subject: Subject,
    sans: seq<SAN>,
    publicKeyAlgorithm: string,
    signatureValid: bool)

  /** The two functions the container calls but does not define: `CreateSANs`,
      which classifies SAN strings, and `newCertificateRequest`, which projects
      a parsed request. Nothing is assumed about either. */
  datatype Collaborators = Collaborators(
    createSANs: seq<string> -> seq<SAN>,
    newCertificateRequest: X509Request -> CertificateRequest)
}
