/** The sign-up page (src/pages/Register.tsx): the ordered checks of
    `validateForm`, the municipality options of the chosen department,
    the reset of the municipality when the department changes, the
    request sent and the error text shown when it fails. The location
    lists and the sign-up call are network calls; their results are
    parameters. */
module Register {
  import opened Wrappers
  import opened Text

  /** A municipality option; `departamento` is its department's id. */
  datatype Municipio = Municipio(id: int, nombre: string, departamento: int)

  /** The form's texts; `municipio` is the selected option's value. */
  datatype RegisterForm = RegisterForm(
    nombreCompleto: string,
    email: string,
    telefono: string,
    password: string,
    confirmPassword: string,
    direccion: string,
    municipio: string)

  const MsgNoCoinciden := "Las contraseñas no coinciden"
  const MsgCorta := "La contraseña debe tener al menos 8 caracteres"
  const MsgMunicipio := "Debes seleccionar un municipio"
  const MsgGenerico := "Error al registrar usuario. Intenta nuevamente."

  /** The shortest password accepted. */
  const MinPassword := 8

  /** `validateForm`: the first failing check's message, None when all pass. */
  function Validate(f: RegisterForm): (r: Option<string>)
    ensures r.None? <==> f.password == f.confirmPassword && |f.password| >= MinPassword && f.municipio != ""
    ensures f.password != f.confirmPassword ==> r == Some(MsgNoCoinciden)
    ensures f.password == f.confirmPassword && |f.password| < MinPassword ==> r == Some(MsgCorta)
    ensures f.password == f.confirmPassword && |f.password| >= MinPassword && f.municipio == "" ==>
              r == Some(MsgMunicipio)
  {
    if f.password != f.confirmPassword then Some(MsgNoCoinciden)
    else if |f.password| < MinPassword then Some(MsgCorta)
    else if f.municipio == "" then Some(MsgMunicipio)
    else None
  }

  /** The municipalities offered: those of the selected department, none
      when no department is selected. The selected value is read with
      parseInt, so a value that is not a number selects nothing. */
  function MunicipiosFor(municipios: seq<Municipio>, selected: string): (r: seq<Municipio>)
    ensures selected == "" ==> r == []
    ensures |r| <= |municipios|
    ensures forall m :: m in r <==> m in municipios && selected != "" && ParseInt(selected) == Int(m.departamento)
  {
    if selected == "" then [] else InDepartamento(municipios, ParseInt(selected))
  }

  /** `municipios.filter(m => m.departamento === n)`; NaN equals nothing. */
  function InDepartamento(municipios: seq<Municipio>, n: Num): (r: seq<Municipio>)
    ensures |r| <= |municipios|
    ensures forall m :: m in r <==> m in municipios && n == Int(m.departamento)
  {
    if municipios == [] then []
    else if n == Int(municipios[0].departamento) then [municipios[0]] + InDepartamento(municipios[1..], n)
    else InDepartamento(municipios[1..], n)
  }

  /** Choosing a department from its option, whose value is the id's
      decimal text, offers exactly that department's municipalities. */
  lemma MunicipiosOfDepartamento(municipios: seq<Municipio>, id: int)
    ensures forall m :: m in MunicipiosFor(municipios, IntToString(id)) <==>
                          m in municipios && m.departamento == id
  {
    ParseIntToString(id);
  }

  /** The department filter keeps the list order. */
  lemma {:induction false} InDepartamentoAppend(a: seq<Municipio>, b: seq<Municipio>, n: Num)
    ensures InDepartamento(a + b, n) == InDepartamento(a, n) + InDepartamento(b, n)
  {
    if a == [] {
      assert a + b == b;
    } else {
      assert (a + b)[1..] == a[1..] + b;
      InDepartamentoAppend(a[1..], b, n);
    }
  }

  /** The page's selection state: the department select and the form. */
  datatype Selection = Selection(departamento: string, form: RegisterForm)

  /** `handleDepartamentoChange`: the department changes and the chosen
      municipality is cleared; nothing else in the form changes. */
  function ChangeDepartamento(s: Selection, value: string): (r: Selection)
    ensures r.departamento == value
    ensures r.form == s.form.(municipio := "")
  {
    Selection(value, s.form.(municipio := ""))
  }

  /** After a department change the form cannot be sent until a
      municipality is chosen again. */
  lemma ChangeBlocksSubmit(s: Selection, value: string)
    ensures Validate(ChangeDepartamento(s, value).form).Some?
  {
  }

  /** The sign-up request; the municipality is the selected text read by parseInt. */
  datatype RegisterRequest = RegisterRequest(
    nombreCompleto: string,
    email: string,
    telefono: string,
    password: string,
    confirmPassword: string,
    direccion: string,
    municipio: Num)

  /** The server's reply: created, or an error carrying a `detail` text and
      the list of `email` errors, each possibly missing. */
  datatype RegisterOutcome = Registered | Rejected(detail: Option<string>, email: Option<seq<string>>)

  /** `detail || email?.[0] || generic`: empty texts and an empty list fall through. */
  function ErrorText(detail: Option<string>, email: Option<seq<string>>): (r: string)
    ensures r != ""
    ensures detail.Some? && detail.value != "" ==> r == detail.value
    ensures (detail.None? || detail.value == "") && email.Some? && email.value != [] && email.value[0] != "" ==>
              r == email.value[0]
    ensures (detail.None? || detail.value == "") && (email.None? || email.value == [] || email.value[0] == "") ==>
              r == MsgGenerico
  {
    if detail.Some? && detail.value != "" then detail.value
    else if email.Some? && email.value != [] && email.value[0] != "" then email.value[0]
    else MsgGenerico
  }

  /** What `handleSubmit` ends with: the request sent (if any), the error
      shown and whether the success screen, which leads to /login, is shown. */
  datatype SubmitResult = SubmitResult(request: Option<RegisterRequest>, error: string, success: bool)

  function Submit(f: RegisterForm, outcome: RegisterOutcome): (r: SubmitResult)
    ensures Validate(f).Some? ==> r == SubmitResult(None, Validate(f).value, false)
    ensures Validate(f).None? ==> r.request.Some? && r.request.value.municipio == ParseInt(f.municipio)
    ensures Validate(f).None? ==>
              r.request == Some(RegisterRequest(f.nombreCompleto, f.email, f.telefono, f.password,
                                                f.confirmPassword, f.direccion, ParseInt(f.municipio)))
    ensures r.request.Some? ==>
              r.request.value.password == r.request.value.confirmPassword &&
              |r.request.value.password| >= MinPassword
    ensures Validate(f).None? ==> (r.success <==> outcome.Registered?)
    ensures Validate(f).None? && outcome.Rejected? ==> r.error == ErrorText(outcome.detail, outcome.email)
    ensures r.success ==> r.error == ""
  {
    match Validate(f)
    case Some(msg) => SubmitResult(None, msg, false)
    case None =>
      var req := RegisterRequest(f.nombreCompleto, f.email, f.telefono, f.password, f.confirmPassword,
                                 f.direccion, ParseInt(f.municipio));
      match outcome
      case Registered => SubmitResult(Some(req), "", true)
      case Rejected(detail, email) => SubmitResult(Some(req), ErrorText(detail, email), false)
  }

  /** A municipality picked from the options is sent as its id. */
  lemma SubmitSendsMunicipioId(f: RegisterForm, m: Municipio, outcome: RegisterOutcome)
    requires f.municipio == IntToString(m.id)
    requires f.password == f.confirmPassword && |f.password| >= MinPassword
    ensures Submit(f, outcome).request.Some?
    ensures Submit(f, outcome).request.value.municipio == Int(m.id)
  {
    ParseIntToString(m.id);
  }
}
