# Template data for X.509 certificate templates

This project models `x509util/templates.go`. The file defines `TemplateData`, a
string-keyed map that collects the per-request values a certificate template
reads. Five keys are well known: `User`, `Subject`, `SANs`, `Token` and `CR`.
A caller either starts from an empty map (`NewTemplateData`) or from one seeded
with a subject common name and SANs (`CreateTemplateData`). The caller then fills
the map in place with a generic setter (`Set`) or with five typed setters. Each
typed setter owns one well-known key. The file also fixes three default
templates: leaf, intermediate and root.

Layout:

- `identity.dfy` (module `Identity`): the values the map stores. These are the
  subject distinguished name, a SAN, the template view of a certificate request,
  and `Collaborators`. `Collaborators` holds the two functions the file calls but
  does not define: `CreateSANs` and `newCertificateRequest`. Every operation that
  calls one of them takes them as a parameter, so nothing is assumed about how
  they behave. Go has one fixed `CreateSANs` and one fixed `newCertificateRequest`,
  so every call on one container is taken to receive the same `Collaborators`.
  Every law about a sequence of calls uses a single `Collaborators` value.
- `templates.dfy` (module `Templates`): the key constants, a closed `Value` union
  in place of `interface{}`, and the class `TemplateData`. The class has one `map`
  field, and its methods update that field in place as the Go map's methods do.
  Beside the class there is a specification of setter calls as values. `Write` is
  one call. `Apply` is its effect on a map. `ApplyAll` is the effect of a sequence
  of calls. Lemmas about these give the container's laws: overwrite, frame,
  idempotence, last write wins, and which keys are bound.
- `profiles.dfy` (module `Profiles`): the three default templates as constant
  records. Each record gives the container keys the template reads and the key
  usages and basic constraints it fixes. `View` is the part of a map that a
  template can see.

Each setter method of the class states its new map in two ways. The first is the
direct update of its one key. The second is `Apply` of the matching `Write`. `ApplyAllSnoc` shows that one more call at the end of a sequence is one
more `Apply`. So a `TemplateData` object that has received a sequence of setter
calls holds `ApplyAll` of those calls, and the laws proved about `ApplyAll`
hold for it.

## Model

| member | source | states |
|---|---|---|
| `Identity.SubjectWithCommonName` | x509util/templates.go:25-27 | the subject built from a common name has that common name, all other attributes are zero, and it is the only such subject |
| `Templates.WellKnownKeysDistinct` | x509util/templates.go:5-11 | the five well-known key names are pairwise distinct |
| `Templates.Empty` | x509util/templates.go:18-20 | `NewTemplateData` returns a map with no keys |
| `Templates.Seeded` | x509util/templates.go:23-30 | `CreateTemplateData(c, L)` has exactly the keys "Subject" and "SANs"; "Subject" holds a subject with common name `c` and every other attribute zero; "SANs" holds `CreateSANs(L)` |
| `Templates.Apply` | x509util/templates.go:32-54 | one setter call binds its own key to its value; every other key keeps its binding, and no other key becomes bound |
| `Templates.TemplateData.New` | x509util/templates.go:18-20 | a new container holds the empty map |
| `Templates.TemplateData.Create` | x509util/templates.go:23-30 | a seeded container holds the map described by `Seeded`, which is also the map that an empty container reaches after `SetSubject` and then `SetSANs` |
| `Templates.TemplateData.Set` | x509util/templates.go:32-34 | the key is bound to the given value, whatever its shape; all other bindings are unchanged |
| `Templates.TemplateData.SetUserData` | x509util/templates.go:36-38 | only "User" changes, and it now holds the given subject |
| `Templates.TemplateData.SetSubject` | x509util/templates.go:40-42 | only "Subject" changes, and it now holds the given subject |
| `Templates.TemplateData.SetSANs` | x509util/templates.go:44-46 | only "SANs" changes, and it now holds `CreateSANs` of the given names |
| `Templates.TemplateData.SetToken` | x509util/templates.go:48-50 | only "Token" changes, and it now holds the given value |
| `Templates.TemplateData.SetCertificateRequest` | x509util/templates.go:52-54 | only "CR" changes, and it now holds the projection of the given request |
| `Templates.SeededIsEmptyThenSetters` | x509util/templates.go:18-46 | `CreateTemplateData(c, L)` equals `NewTemplateData()` followed by `SetSubject(Subject{CommonName: c})` and then `SetSANs(L)` |
| `Templates.LaterWriteShadows` | x509util/templates.go:32-54 | of two calls that write the same key, the second decides the whole resulting map |
| `Templates.SetThenSetSubject` | x509util/templates.go:32-42 | `Set("Subject", x)` followed by `SetSubject(y)` leaves `y` under "Subject", as if the `Set` had never happened |
| `Templates.ApplyIdempotent` | x509util/templates.go:32-54 | calling any setter twice with the same arguments gives the same map as calling it once |
| `Templates.DistinctWritesCommute` | x509util/templates.go:32-54 | calls that write different keys give the same map in either order |
| `Templates.ApplyAllUnwritten` | x509util/templates.go:32-54 | a key that no call in a sequence writes keeps its binding, or stays unbound |
| `Templates.ApplyAllKeys` | x509util/templates.go:32-54 | after a sequence of calls, the bound keys are the keys bound before plus the keys the calls write |
| `Templates.ApplyAllSnoc` | x509util/templates.go:32-54 | one more setter call after a sequence of calls is one more single-call update, so calls made one at a time on a container build `ApplyAll` of those calls |
| `Templates.FreshContainerHoldsOnlyWrittenKeys` | x509util/templates.go:18-54 | a container started with `NewTemplateData` binds exactly the keys written to it since, so it holds nothing from another request |
| `Templates.ApplyAllLastWriteWins` | x509util/templates.go:32-54 | the last call in a sequence that writes a key decides what that key holds |
| `Templates.ConstructorsWellShaped` | x509util/templates.go:18-30 | both constructors give maps in which every bound well-known key holds the shape its typed setter stores |
| `Templates.TypedSettersKeepShape` | x509util/templates.go:36-54 | any sequence of typed-setter calls and generic `Set` calls on caller-defined keys keeps every well-known key well shaped |
| `Templates.GenericSetCanBreakShape` | x509util/templates.go:32-34 | the generic `Set` does not check shapes: a non-subject value stored under "Subject" leaves the map ill shaped |
| `Profiles.LeafProfileFixed` | x509util/templates.go:56-61 | the leaf template reads exactly "Subject" and "SANs"; its key usage is `[keyEncipherment, digitalSignature]` and its extended key usage `[serverAuth, clientAuth]`, in that order; it has no basic constraints |
| `Profiles.IntermediateProfileFixed` | x509util/templates.go:63-70 | the intermediate template reads only "Subject"; its key usage is `[certSign, crlSign]`; it is a CA with `maxPathLen` 0 |
| `Profiles.RootProfileFixed` | x509util/templates.go:72-80 | the root template takes both subject and issuer from "Subject"; its key usage is `[certSign, crlSign]`; it is a CA with `maxPathLen` 1 |
| `Profiles.UnreadWritesKeepView` | x509util/templates.go:56-80 | calls that write only keys a template does not read leave what that template sees unchanged |
| `Profiles.LeafIgnoresUserTokenAndRequest` | x509util/templates.go:56-61 | setting "User", "Token" and "CR" does not change what the leaf template sees |
| `Profiles.SeededSuppliesEveryProfile` | x509util/templates.go:23-80 | a container from `CreateTemplateData`, after any further calls, binds every key that each default template reads |
| `Profiles.LeafViewOfSeeded` | x509util/templates.go:23-61 | given `CreateTemplateData(c, L)`, the leaf template sees exactly a subject with common name `c` and nothing else, and `CreateSANs(L)` |

## Left out

- `CreateSANs` and `newCertificateRequest` are defined outside `x509util/templates.go`. They are function parameters (`Identity.Collaborators`), and no rule about SAN classification, order or request parsing is stated.
- The `Subject`, `SubjectAlternativeName` and `CertificateRequest` types are defined outside `x509util/templates.go` and are not part of this model. Their fields here are a plausible shape. The only fact relied on is that `Subject{CommonName: c}` leaves every other attribute zero.
- `*x509.CertificateRequest` and its parsing are cryptographic and foreign. The parsed request is an abstract record (`Identity.X509Request`).
- `interface{}` is replaced by the closed union `Templates.Value`. `Set` and `SetToken` accept any `Value`, as the source accepts any value. No validation is added.
- The text-template engine, `toJson` and the JSON text of the three templates are not modelled. Only the keys each template reads and the fixed extension values are modelled. A field a template does not emit is written as `None` or as an empty list.
- What a template renders when a key it reads is unbound belongs to the template engine and is not modelled.
- Concurrency and pooling do not exist in this code.
- The nil `TemplateData` is not modelled. In Go, the zero value of the map type is a nil map, and every setter panics on it with "assignment to entry in nil map". Here the class always holds a map, so this panic is not modelled.
- Direct map indexing and `delete` on a `TemplateData` are not modelled. The laws cover only the two constructors and the six setters. For example, "after any further calls" in `Profiles.SeededSuppliesEveryProfile` means setter calls only.
