/** The template data container: a string-keyed map that collects the values a
    certificate template reads, under five well-known keys and any key a caller
    chooses. */
module Templates {
  import opened Identity

  const UserKey: string := "User"
  const SubjectKey: string := "Subject"
  const SANsKey: string := "SANs"
  const TokenKey: string := "Token"
  const CertificateRequestKey: string := "CR"

  const WellKnownKeys: seq<string> := [UserKey, SubjectKey, SANsKey, TokenKey, CertificateRequestKey]

  /** The five well-known keys are pairwise distinct, so a typed setter never
      disturbs the key of another typed setter. */
  lemma WellKnownKeysDistinct()
    ensures |WellKnownKeys| == 5
    ensures forall i, j :: 0 <= i < j < |WellKnownKeys| ==> WellKnownKeys[i] != WellKnownKeys[j]
  {
  }

  /** The values a container can hold: a closed union in place of `interface{}`. */
  datatype Value =
    | SubjectValue(subject: Subject)
    | SANsValue(sans: seq<SAN>)
    | TokenValue(token: string)
    | RequestValue(request: CertificateRequest)
    | OpaqueValue(bytes: seq<bv8>)

  type Data = map<string, Value>

  /** The contents of `NewTemplateData()`. */
  function Empty(): (m: Data)
    ensures m.Keys == {}
  {
    map[]
  }

  /** The contents of `CreateTemplateData(commonName, sans)`. */
  function Seeded(commonName: string, sans: seq<string>, env: Collaborators): (m: Data)
    ensures m.Keys == {SubjectKey, SANsKey}
    ensures m[SubjectKey].SubjectValue?
    ensures m[SubjectKey].subject.commonName == commonName && OnlyCommonName(m[SubjectKey].subject)
    ensures m[SANsKey] == SANsValue(env.createSANs(sans))
  {
    map[SubjectKey := SubjectValue(SubjectWithCommonName(commonName)),
        SANsKey := SANsValue(env.createSANs(sans))]
  }

  /** One call of a setter on a container, with its arguments. */
  datatype Write =
    | Set(key: string, v: Value)
    | SetUserData(user: Subject)
    | SetSubject(subject: Subject)
    | SetSANs(names: seq<string>)
    | SetToken(token: Value)
    | SetCertificateRequest(cr: X509Request)

  /** The key a setter call writes. */
  function KeyOf(w: Write): string
  {
    match w
    case Set(k, _) => k
    case SetUserData(_) => UserKey
    case SetSubject(_) => SubjectKey
    case SetSANs(_) => SANsKey
    case SetToken(_) => TokenKey
    case SetCertificateRequest(_) => CertificateRequestKey
  }

  /** The value a setter call stores under its key. */
  function ValueOf(w: Write, env: Collaborators): Value
  {
    match w
    case Set(_, v) => v
    case SetUserData(s) => SubjectValue(s)
    case SetSubject(s) => SubjectValue(s)
    case SetSANs(names) => SANsValue(env.createSANs(names))
    case SetToken(v) => v
    case SetCertificateRequest(cr) => RequestValue(env.newCertificateRequest(cr))
  }

  /** The container after one setter call: its key is bound to its value, and
      every other key keeps its binding or stays unbound. */
  function Apply(m: Data, w: Write, env: Collaborators): (r: Data)
    ensures r.Keys == m.Keys + {KeyOf(w)}
    ensures r[KeyOf(w)] == ValueOf(w, env)
    ensures forall k :: k in m && k != KeyOf(w) ==> r[k] == m[k]
  {
    m[KeyOf(w) := ValueOf(w, env)]
  }

  /** The container after a sequence of setter calls, first to last. */
  function ApplyAll(m: Data, ws: seq<Write>, env: Collaborators): Data
    decreases |ws|
  {
    if ws == [] then m else ApplyAll(Apply(m, ws[0], env), ws[1..], env)
  }

  /** One more call at the end of a sequence is one more `Apply`: a client
      that makes its calls one after another on a `TemplateData` object holds
      `ApplyAll` of the calls made so far. */
  lemma {:induction false} ApplyAllSnoc(m: Data, ws: seq<Write>, w: Write, env: Collaborators)
    ensures ApplyAll(m, ws + [w], env) == Apply(ApplyAll(m, ws, env), w, env)
    decreases |ws|
  {
    if ws == [] {
      assert [w][1..] == [];
    } else {
      assert (ws + [w])[1..] == ws[1..] + [w];
      ApplyAllSnoc(Apply(m, ws[0], env), ws[1..], w, env);
    }
  }

  /** The keys a sequence of setter calls writes. */
  function WrittenKeys(ws: seq<Write>): set<string>
  {
    set i | 0 <= i < |ws| :: KeyOf(ws[i])
  }

  lemma WrittenKeysCons(ws: seq<Write>)
    requires ws != []
    ensures WrittenKeys(ws) == {KeyOf(ws[0])} + WrittenKeys(ws[1..])
  {
  }

  /** `CreateTemplateData(c, L)` builds the same map as `NewTemplateData()`
      followed by `SetSubject(Subject{CommonName: c})` and `SetSANs(L)`. */
  lemma SeededIsEmptyThenSetters(c: string, sans: seq<string>, env: Collaborators)
    ensures Seeded(c, sans, env)
         == ApplyAll(Empty(), [SetSubject(SubjectWithCommonName(c)), SetSANs(sans)], env)
  {
    var ws := [SetSubject(SubjectWithCommonName(c)), SetSANs(sans)];
    var afterSubject := Apply(Empty(), ws[0], env);
    assert ws[1..] == [SetSANs(sans)];
    assert ApplyAll(Empty(), ws, env) == ApplyAll(afterSubject, [SetSANs(sans)], env);
    assert [SetSANs(sans)][1..] == [];
    assert ApplyAll(afterSubject, [SetSANs(sans)], env) == Apply(afterSubject, SetSANs(sans), env);
  }

  /** Of two calls that write the same key, the later one wins outright. */
  lemma LaterWriteShadows(m: Data, w1: Write, w2: Write, env: Collaborators)
    requires KeyOf(w1) == KeyOf(w2)
    ensures Apply(Apply(m, w1, env), w2, env) == Apply(m, w2, env)
  {
  }

  /** `Set("Subject", x)` then `SetSubject(y)` leaves `y` under "Subject". */
  lemma SetThenSetSubject(m: Data, x: Value, y: Subject, env: Collaborators)
    ensures Apply(Apply(m, Set(SubjectKey, x), env), SetSubject(y), env)[SubjectKey] == SubjectValue(y)
    ensures Apply(Apply(m, Set(SubjectKey, x), env), SetSubject(y), env) == Apply(m, SetSubject(y), env)
  {
  }

  /** Calling a setter twice with the same arguments is the same as calling it once. */
  lemma ApplyIdempotent(m: Data, w: Write, env: Collaborators)
    ensures Apply(Apply(m, w, env), w, env) == Apply(m, w, env)
  {
  }

  /** Calls that write different keys can be made in either order. */
  lemma DistinctWritesCommute(m: Data, w1: Write, w2: Write, env: Collaborators)
    requires KeyOf(w1) != KeyOf(w2)
    ensures Apply(Apply(m, w1, env), w2, env) == Apply(Apply(m, w2, env), w1, env)
  {
  }

  /** A key that no call in the sequence writes keeps its binding, or stays unbound. */
  lemma {:induction false} ApplyAllUnwritten(m: Data, ws: seq<Write>, k: string, env: Collaborators)
    requires k !in WrittenKeys(ws)
    ensures k in ApplyAll(m, ws, env) <==> k in m
    ensures k in m ==> ApplyAll(m, ws, env)[k] == m[k]
    decreases |ws|
  {
    if ws != [] {
      WrittenKeysCons(ws);
      ApplyAllUnwritten(Apply(m, ws[0], env), ws[1..], k, env);
    }
  }

  /** A sequence of calls binds exactly the keys bound before plus the keys it writes. */
  lemma {:induction false} ApplyAllKeys(m: Data, ws: seq<Write>, env: Collaborators)
    ensures ApplyAll(m, ws, env).Keys == m.Keys + WrittenKeys(ws)
    decreases |ws|
  {
    if ws == [] {
      assert WrittenKeys(ws) == {};
    } else {
      WrittenKeysCons(ws);
      ApplyAllKeys(Apply(m, ws[0], env), ws[1..], env);
    }
  }

  /** A container made by `NewTemplateData` holds exactly the keys written to it
      since, so nothing of an earlier request can appear in it. */
  lemma FreshContainerHoldsOnlyWrittenKeys(ws: seq<Write>, env: Collaborators)
    ensures ApplyAll(Empty(), ws, env).Keys == WrittenKeys(ws)
  {
    ApplyAllKeys(Empty(), ws, env);
  }

  /** The last call that writes a key decides what the key holds. */
  lemma {:induction false} ApplyAllLastWriteWins(m: Data, ws: seq<Write>, i: nat, env: Collaborators)
    requires i < |ws|
    requires forall j :: i < j < |ws| ==> KeyOf(ws[j]) != KeyOf(ws[i])
    ensures KeyOf(ws[i]) in ApplyAll(m, ws, env)
    ensures ApplyAll(m, ws, env)[KeyOf(ws[i])] == ValueOf(ws[i], env)
    decreases |ws|
  {
    if i == 0 {
      var k := KeyOf(ws[0]);
      forall j | 0 <= j < |ws[1..]| ensures KeyOf(ws[1..][j]) != k {
        assert ws[1..][j] == ws[j + 1];
      }
      ApplyAllUnwritten(Apply(m, ws[0], env), ws[1..], k, env);
    } else {
      forall j | i - 1 < j < |ws[1..]| ensures KeyOf(ws[1..][j]) != KeyOf(ws[1..][i - 1]) {
        assert ws[1..][j] == ws[j + 1];
      }
      ApplyAllLastWriteWins(Apply(m, ws[0], env), ws[1..], i - 1, env);
    }
  }

  /** Each bound well-known key holds the shape its typed setter stores
      ("Token" may hold anything). */
  predicate WellShaped(m: Data)
  {
    && (UserKey in m ==> m[UserKey].SubjectValue?)
    && (SubjectKey in m ==> m[SubjectKey].SubjectValue?)
    && (SANsKey in m ==> m[SANsKey].SANsValue?)
    && (CertificateRequestKey in m ==> m[CertificateRequestKey].RequestValue?)
  }

  /** Both constructors produce well-shaped containers. */
  lemma ConstructorsWellShaped(c: string, sans: seq<string>, env: Collaborators)
    ensures WellShaped(Empty())
    ensures WellShaped(Seeded(c, sans, env))
  {
  }

  /** Calls of the five typed setters, and generic `Set` calls on caller-defined
      keys, keep every well-known key well shaped. */
  lemma {:induction false} TypedSettersKeepShape(m: Data, ws: seq<Write>, env: Collaborators)
    requires WellShaped(m)
    requires forall i :: 0 <= i < |ws| && ws[i].Set? ==> ws[i].key !in WellKnownKeys
    ensures WellShaped(ApplyAll(m, ws, env))
    decreases |ws|
  {
    if ws != [] {
      var m' := Apply(m, ws[0], env);
      assert WellShaped(m');
      forall i | 0 <= i < |ws[1..]| && ws[1..][i].Set? ensures ws[1..][i].key !in WellKnownKeys {
        assert ws[1..][i] == ws[i + 1];
      }
      TypedSettersKeepShape(m', ws[1..], env);
    }
  }

  /** The generic setter is not checked: it can put a value of the wrong shape
      under a well-known key. */
  lemma GenericSetCanBreakShape(m: Data, v: Value, env: Collaborators)
    requires !v.SubjectValue?
    ensures !WellShaped(Apply(m, Set(SubjectKey, v), env))
  {
  }

  /** The container that the Go map `TemplateData` is; a reference, so every
      setter changes what all holders of the reference see. */
  class TemplateData {
    var data: Data

    /** `NewTemplateData`. */
    constructor New()
      ensures data == Empty()
    {
      data := map[];
    }

    /** `CreateTemplateData`. */
    constructor Create(commonName: string, sans: seq<string>, env: Collaborators)
      ensures data == Seeded(commonName, sans, env)
      ensures data == ApplyAll(Empty(), [Write.SetSubject(SubjectWithCommonName(commonName)), Write.SetSANs(sans)], env)
    {
      data := Seeded(commonName, sans, env);
      SeededIsEmptyThenSetters(commonName, sans, env);
    }

    /** Binds any key to any value, well-known keys included. */
    method Set(key: string, v: Value)
      modifies this
      ensures data == old(data)[key := v]
      ensures forall env: Collaborators :: data == Apply(old(data), Write.Set(key, v), env)
    {
      data := data[key := v];
    }

    method SetUserData(v: Subject)
      modifies this
      ensures data == old(data)[UserKey := SubjectValue(v)]
      ensures forall env: Collaborators :: data == Apply(old(data), Write.SetUserData(v), env)
    {
      data := data[UserKey := SubjectValue(v)];
    }

    method SetSubject(v: Subject)
      modifies this
      ensures data == old(data)[SubjectKey := SubjectValue(v)]
      ensures forall env: Collaborators :: data == Apply(old(data), Write.SetSubject(v), env)
    {
      data := data[SubjectKey := SubjectValue(v)];
    }

    method SetSANs(sans: seq<string>, env: Collaborators)
      modifies this
      ensures data == old(data)[SANsKey := SANsValue(env.createSANs(sans))]
      ensures data == Apply(old(data), Write.SetSANs(sans), env)
    {
      data := data[SANsKey := SANsValue(env.createSANs(sans))];
    }

    method SetToken(v: Value)
      modifies this
      ensures data == old(data)[TokenKey := v]
      ensures forall env: Collaborators :: data == Apply(old(data), Write.SetToken(v), env)
    {
      data := data[TokenKey := v];
    }

    method SetCertificateRequest(cr: X509Request, env: Collaborators)
      modifies this
      ensures data == old(data)[CertificateRequestKey := RequestValue(env.newCertificateRequest(cr))]
      ensures data == Apply(old(data), Write.SetCertificateRequest(cr), env)
    {
      data := data[CertificateRequestKey := RequestValue(env.newCertificateRequest(cr))];
    }
  }
}
