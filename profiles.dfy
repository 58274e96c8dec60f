/** The three default certificate templates (leaf, intermediate, root), as the
    records of what each one reads from the container and what it fixes. */
module Profiles {
  import opened Identity
  import opened Templates

  datatype Option<T> = None | Some(value: T)

  datatype KeyUsage = KeyEncipherment | DigitalSignature | CertSign | CRLSign
  datatype ExtKeyUsage = ServerAuth | ClientAuth
  datatype BasicConstraints = BasicConstraints(isCA: bool, maxPathLen: int)

  /** A default template: the container key rendered as "subject", the keys
      rendered as "issuer" and "sans" (None when the template has no such
      field), and the fixed extension values. An empty `extKeyUsage` and a
      `None` constraint stand for a field the template does not emit. */
  datatype Profile = Profile(
    subjectKey: string,
    issuerKey: Option<string>,
    sansKey: Option<string>,
    keyUsage: seq<KeyUsage>,
    extKeyUsage: seq<ExtKeyUsage>,
    basicConstraints: Option<BasicConstraints>)

  const Leaf: Profile := Profile(
    SubjectKey, None, Some(SANsKey),
    [KeyEncipherment, DigitalSignature], [ServerAuth, ClientAuth], None)

  const Intermediate: Profile := Profile(
    SubjectKey, None, None,
    [CertSign, CRLSign], [], Some(BasicConstraints(true, 0)))

  const Root: Profile := Profile(
    SubjectKey, Some(SubjectKey), None,
    [CertSign, CRLSign], [], Some(BasicConstraints(true, 1)))

  function OptionKeys(o: Option<string>): set<string>
  {
    if o.Some? then {o.value} else {}
  }

  /** The container keys a template reads. */
  function ReadKeys(p: Profile): set<string>
  {
    {p.subjectKey} + OptionKeys(p.issuerKey) + OptionKeys(p.sansKey)
  }

  /** The part of the container a template can see. */
  function View(p: Profile, data: Data): Data
  {
    map k | k in ReadKeys(p) && k in data :: data[k]
  }

  /** The leaf template reads "Subject" and "SANs", and fixes its key usages
      and extended key usages, in this order, with no basic constraints. */
  lemma LeafProfileFixed()
    ensures ReadKeys(Leaf) == {SubjectKey, SANsKey}
    ensures Leaf.keyUsage == [KeyEncipherment, DigitalSignature]
    ensures Leaf.extKeyUsage == [ServerAuth, ClientAuth]
    ensures Leaf.basicConstraints == None
  {
  }

  /** The intermediate template reads only "Subject", may sign certificates
      and revocation lists, and allows no CA below it. */
  lemma IntermediateProfileFixed()
    ensures ReadKeys(Intermediate) == {SubjectKey}
    ensures Intermediate.keyUsage == [CertSign, CRLSign] && Intermediate.extKeyUsage == []
    ensures Intermediate.basicConstraints == Some(BasicConstraints(true, 0))
  {
  }

  /** The root template is self-signed (subject and issuer come from the same
      key), may sign certificates and revocation lists, and allows one level of
      intermediates below it. */
  lemma RootProfileFixed()
    ensures ReadKeys(Root) == {SubjectKey}
    ensures Root.issuerKey == Some(Root.subjectKey)
    ensures Root.keyUsage == [CertSign, CRLSign] && Root.extKeyUsage == []
    ensures Root.basicConstraints == Some(BasicConstraints(true, 1))
  {
  }

  /** What a template sees does not change under calls that write only keys
      it does not read. */
  lemma UnreadWritesKeepView(p: Profile, m: Data, ws: seq<Write>, env: Collaborators)
    requires ReadKeys(p) !! WrittenKeys(ws)
    ensures View(p, ApplyAll(m, ws, env)) == View(p, m)
  {
    forall k | k in ReadKeys(p) {
      ApplyAllUnwritten(m, ws, k, env);
    }
  }

  /** The leaf template does not read "User", "Token" or "CR": setting them
      leaves what it renders unchanged. */
  lemma LeafIgnoresUserTokenAndRequest(m: Data, user: Subject, token: Value, cr: X509Request, env: Collaborators)
    ensures View(Leaf, ApplyAll(m, [SetUserData(user), SetToken(token), SetCertificateRequest(cr)], env))
         == View(Leaf, m)
  {
    var ws := [SetUserData(user), SetToken(token), SetCertificateRequest(cr)];
    assert WrittenKeys(ws) == {UserKey, TokenKey, CertificateRequestKey} by {
      assert KeyOf(ws[0]) == UserKey && KeyOf(ws[1]) == TokenKey && KeyOf(ws[2]) == CertificateRequestKey;
    }
    UnreadWritesKeepView(Leaf, m, ws, env);
  }

  /** A container made by `CreateTemplateData`, whatever is written to it
      afterwards, binds every key that each default template reads. */
  lemma SeededSuppliesEveryProfile(c: string, sans: seq<string>, ws: seq<Write>, env: Collaborators)
    ensures ReadKeys(Leaf) <= ApplyAll(Seeded(c, sans, env), ws, env).Keys
    ensures ReadKeys(Intermediate) <= ApplyAll(Seeded(c, sans, env), ws, env).Keys
    ensures ReadKeys(Root) <= ApplyAll(Seeded(c, sans, env), ws, env).Keys
  {
    ApplyAllKeys(Seeded(c, sans, env), ws, env);
  }

  /** The leaf template, given `CreateTemplateData(c, L)`, sees a subject with
      common name `c` and nothing else, and the SANs built from `L`. */
  lemma LeafViewOfSeeded(c: string, sans: seq<string>, env: Collaborators)
    ensures View(Leaf, Seeded(c, sans, env)).Keys == {SubjectKey, SANsKey}
    ensures View(Leaf, Seeded(c, sans, env))[SubjectKey] == SubjectValue(SubjectWithCommonName(c))
    ensures View(Leaf, Seeded(c, sans, env))[SANsKey] == SANsValue(env.createSANs(sans))
  {
  }
}
