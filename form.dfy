/**
 * The form state holder: the draft the teacher edits, the update that replaces one of its
 * fields, the readiness check that enables the submit button, and the payload that is sent.
 */
module Form {
  import opened Text

  /** The three form fields; `perfilAlumnos` is the request's `perfil_alumnos`. */
  datatype Draft = Draft(tema: string, materia: string, perfilAlumnos: string)

  /** The keys `updateField` is called with. */
  datatype Field = Tema | Materia | PerfilAlumnos

  /** A request payload has the shape of a draft. */
  type Payload = Draft

  const MinTemaLength := 3
  const MinPerfilLength := 5

  /** The topics offered as one-click suggestions. */
  const QuickTopics: seq<string> := [
    "La Guerra Civil Española",
    "La Generación del 27",
    "Present Perfect vs Past Simple"
  ]

  /** The student profiles offered as one-click suggestions. */
  const QuickProfiles: seq<string> := [
    "Mayoría de estudiantes de Colombia y Venezuela",
    "Grupo mixto con alumnado de Marruecos, Perú y Rumanía",
    "Clase de recién llegados con nivel intermedio de español"
  ]

  /** The draft the page opens with: the first quick topic and quick profile. */
  const InitialDraft := Draft(QuickTopics[0], "Historia", QuickProfiles[0])

  function Get(d: Draft, key: Field): string {
    match key
    case Tema => d.tema
    case Materia => d.materia
    case PerfilAlumnos => d.perfilAlumnos
  }

  /** `{ ...prev, [key]: value }`: the draft with `key` set to `value`, the other keys as they were. */
  function UpdateField(d: Draft, key: Field, value: string): (r: Draft)
    ensures Get(r, key) == value
    ensures forall k :: k != key ==> Get(r, k) == Get(d, k)
  {
    match key
    case Tema => d.(tema := value)
    case Materia => d.(materia := value)
    case PerfilAlumnos => d.(perfilAlumnos := value)
  }

  /** `canSubmit`: the topic and the profile are long enough once trimmed, in UTF-16 code units. */
  predicate CanSubmit(d: Draft) {
    Utf16Length(Trim(d.tema)) >= MinTemaLength && Utf16Length(Trim(d.perfilAlumnos)) >= MinPerfilLength
  }

  /** The payload built at submit time: topic and profile trimmed, subject as it is. */
  function BuildPayload(d: Draft): (p: Payload)
    ensures p.materia == d.materia
    ensures IsTrimmed(p.tema) && IsTrimmed(p.perfilAlumnos)
  {
    TrimShape(d.tema);
    TrimShape(d.perfilAlumnos);
    Draft(Trim(d.tema), d.materia, Trim(d.perfilAlumnos))
  }

  /** Trimming never lengthens the topic or the profile. */
  lemma PayloadNoLonger(d: Draft)
    ensures Utf16Length(BuildPayload(d).tema) <= Utf16Length(d.tema)
    ensures Utf16Length(BuildPayload(d).perfilAlumnos) <= Utf16Length(d.perfilAlumnos)
  {
    Utf16LengthTrim(d.tema);
    Utf16LengthTrim(d.perfilAlumnos);
  }

  /**
   * The payload is the draft with the whitespace around the topic and the profile removed:
   * whatever padding surrounds them, exactly the trimmed text is sent.
   */
  lemma PayloadStripsPadding(tema: string, materia: string, perfil: string,
                             p1: string, q1: string, p2: string, q2: string)
    requires IsTrimmed(tema) && IsTrimmed(perfil)
    requires AllSpace(p1) && AllSpace(q1) && AllSpace(p2) && AllSpace(q2)
    ensures BuildPayload(Draft(p1 + tema + q1, materia, p2 + perfil + q2)) == Draft(tema, materia, perfil)
  {
    TrimUnique(p1, tema, q1);
    TrimUnique(p2, perfil, q2);
  }

  /** What every payload that reaches the generation call satisfies. */
  predicate IsPayload(p: Payload) {
    && IsTrimmed(p.tema) && Utf16Length(p.tema) >= MinTemaLength
    && IsTrimmed(p.perfilAlumnos) && Utf16Length(p.perfilAlumnos) >= MinPerfilLength
  }

  /** A payload put back into the form would enable the submit button again. */
  lemma PayloadCanSubmit(p: Payload)
    requires IsPayload(p)
    ensures CanSubmit(p)
  {
  }

  /** Setting a field twice keeps only the second value. */
  lemma UpdateFieldTwice(d: Draft, key: Field, v: string, w: string)
    ensures UpdateField(UpdateField(d, key, v), key, w) == UpdateField(d, key, w)
  {
  }

  /** Writing back a field's own value changes nothing. */
  lemma UpdateFieldSame(d: Draft, key: Field)
    ensures UpdateField(d, key, Get(d, key)) == d
  {
  }

  /** Updates of two different fields commute. */
  lemma UpdateFieldCommutes(d: Draft, k1: Field, v1: string, k2: Field, v2: string)
    requires k1 != k2
    ensures UpdateField(UpdateField(d, k1, v1), k2, v2) == UpdateField(UpdateField(d, k2, v2), k1, v1)
  {
  }

  /** A topic or profile that is too short even before trimming never enables submission. */
  lemma ShortFieldsCannotSubmit(d: Draft)
    requires Utf16Length(d.tema) < MinTemaLength || Utf16Length(d.perfilAlumnos) < MinPerfilLength
    ensures !CanSubmit(d)
  {
    Utf16LengthTrim(d.tema);
    Utf16LengthTrim(d.perfilAlumnos);
  }

  /** Surrounding whitespace never counts towards the lengths `canSubmit` checks. */
  lemma PaddingIsIgnored(d: Draft, p1: string, q1: string, p2: string, q2: string)
    requires AllSpace(p1) && AllSpace(q1) && AllSpace(p2) && AllSpace(q2)
    ensures CanSubmit(d.(tema := p1 + Trim(d.tema) + q1, perfilAlumnos := p2 + Trim(d.perfilAlumnos) + q2))
            == CanSubmit(d)
  {
    TrimShape(d.tema);
    TrimShape(d.perfilAlumnos);
    TrimUnique(p1, Trim(d.tema), q1);
    TrimUnique(p2, Trim(d.perfilAlumnos), q2);
  }

  /** A submittable draft yields a payload that is itself submittable and already trimmed. */
  lemma PayloadOfSubmittable(d: Draft)
    requires CanSubmit(d)
    ensures IsPayload(BuildPayload(d))
    ensures BuildPayload(BuildPayload(d)) == BuildPayload(d)
  {
  }

  /** A draft whose topic and profile carry no surrounding whitespace and are long enough can be sent. */
  lemma TrimmedDraftCanSubmit(d: Draft)
    requires IsTrimmed(d.tema) && IsTrimmed(d.perfilAlumnos)
    requires |d.tema| >= MinTemaLength && |d.perfilAlumnos| >= MinPerfilLength
    ensures CanSubmit(d)
  {
  }

  /** The first quick topic carries no surrounding whitespace and is long enough. */
  lemma InitialTemaTrimmed(t: string)
    requires t == "La Guerra Civil Española"
    ensures IsTrimmed(t) && |t| >= MinTemaLength
  {
  }

  /** The first quick profile carries no surrounding whitespace and is long enough. */
  lemma InitialPerfilTrimmed(p: string)
    requires p == "Mayoría de estudiantes de Colombia y Venezuela"
    ensures IsTrimmed(p) && |p| >= MinPerfilLength
  {
    var a, b := "Mayoría de estudiantes", " de Colombia y Venezuela";
    assert p == a + b;
    assert p[0] == a[0] && p[|p| - 1] == b[|b| - 1];
  }

  /** The draft the page opens with can be submitted straight away. */
  lemma InitialDraftCanSubmit()
    ensures CanSubmit(InitialDraft)
  {
    InitialTemaTrimmed(InitialDraft.tema);
    InitialPerfilTrimmed(InitialDraft.perfilAlumnos);
    TrimmedDraftCanSubmit(InitialDraft);
  }
}
