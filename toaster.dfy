/** The toast notifications: the list of toasts the provider keeps, the operations that add,
    update and dismiss them, and the stack the viewport shows. The generated id and the clock are
    parameters. */
module Toaster {
  import opened Wrappers
  import opened Folds

  datatype Variante = Success | Error | Info | Warning

  /** A property of a partial options object: missing, present with the value `undefined`, or
      present with a value. Spreading the object copies the last two alike. */
  datatype Campo<T> = Ausente | Indefinido | Def(v: T)

  /** A toast. Every field other than `createdAt` can be overwritten by an update, with
      `undefined` too, so each is optional here; `toast` fills the first five. */
  datatype Toast = Toast(
    id: Option<string>,
    title: Option<string>,
    description: Option<string>,
    variant: Option<Variante>,
    duration: Option<int>,
    createdAt: int,
    showProgress: Option<bool>,
    progressValue: Option<real>,
    progressMax: Option<real>,
    progressLabel: Option<string>)

  /** The options of `toast(opts)`; a missing option and an `undefined` one act alike there. */
  datatype Opcoes = Opcoes(
    id: Option<string>,
    title: Option<string>,
    description: Option<string>,
    variant: Option<Variante>,
    duration: Option<int>,
    showProgress: Option<bool>,
    progressValue: Option<real>,
    progressMax: Option<real>,
    progressLabel: Option<string>)

  /** The partial options of `updateToast(id, opts)`. */
  datatype Atualizacao = Atualizacao(
    id: Campo<string>,
    title: Campo<string>,
    description: Campo<string>,
    variant: Campo<Variante>,
    duration: Campo<int>,
    showProgress: Campo<bool>,
    progressValue: Campo<real>,
    progressMax: Campo<real>,
    progressLabel: Campo<string>)

  const DURACAO_PADRAO := 4000
  const MAX_STACK := 3

  function Ou<T>(o: Option<T>, padrao: T): T {
    if o.Some? then o.value else padrao
  }

  /** The toast `toast(opts)` builds: the given id or the generated one, variant "info" and 4000 ms
      unless given, empty title and description unless given, the progress options as passed. */
  function NovoToast(opts: Opcoes, gerado: string, agora: int): (t: Toast)
    ensures t.id == Some(Ou(opts.id, gerado))
    ensures t.variant == Some(Ou(opts.variant, Info)) && t.duration == Some(Ou(opts.duration, DURACAO_PADRAO))
    ensures t.title == Some(Ou(opts.title, "")) && t.description == Some(Ou(opts.description, ""))
    ensures t.createdAt == agora
    ensures t.showProgress == opts.showProgress && t.progressValue == opts.progressValue
    ensures t.progressMax == opts.progressMax && t.progressLabel == opts.progressLabel
  {
    Toast(Some(Ou(opts.id, gerado)), Some(Ou(opts.title, "")), Some(Ou(opts.description, "")),
          Some(Ou(opts.variant, Info)), Some(Ou(opts.duration, DURACAO_PADRAO)), agora,
          opts.showProgress, opts.progressValue, opts.progressMax, opts.progressLabel)
  }

  /** `toast(opts)`: the new list, with the toast appended, and the id it returns. */
  function AdicionarToast(s: seq<Toast>, opts: Opcoes, gerado: string, agora: int): (r: (seq<Toast>, string))
    ensures |r.0| == |s| + 1 && r.0[..|s|] == s
    ensures r.0[|s|] == NovoToast(opts, gerado, agora) && r.0[|s|].id == Some(r.1)
  {
    var t := NovoToast(opts, gerado, agora);
    (s + [t], t.id.value)
  }

  /** The toast whose auto-dismiss is scheduled: only one with a positive duration. */
  predicate AutoFecha(opts: Opcoes) {
    Ou(opts.duration, DURACAO_PADRAO) > 0
  }

  /** A toast with no duration given closes by itself; duration 0 keeps it open. */
  lemma AutoFechaPadrao(opts: Opcoes)
    ensures opts.duration.None? ==> AutoFecha(opts)
    ensures opts.duration == Some(0) ==> !AutoFecha(opts)
  {
  }

  function NaoTemId(id: string): Toast -> bool {
    (t: Toast) => t.id != Some(id)
  }

  /** `dismiss(id)`: the toasts without that id, in their order. */
  function Dismiss(s: seq<Toast>, id: string): (r: seq<Toast>)
    ensures |r| <= |s|
    ensures forall i :: 0 <= i < |r| ==> r[i].id != Some(id) && r[i] in s
  {
    Filter(s, NaoTemId(id))
  }

  /** Dismissing removes exactly the toasts with that id: every other toast stays. */
  lemma DismissRemoveSoEsse(s: seq<Toast>, id: string, t: Toast)
    ensures t in Dismiss(s, id) <==> t in s && t.id != Some(id)
  {
    FilterMembership(s, NaoTemId(id), t);
  }

  /** Dismissing an id no toast has leaves the list as it was, and dismissing twice is dismissing once. */
  lemma DismissSemEfeito(s: seq<Toast>, id: string)
    ensures (forall i :: 0 <= i < |s| ==> s[i].id != Some(id)) ==> Dismiss(s, id) == s
    ensures Dismiss(Dismiss(s, id), id) == Dismiss(s, id)
  {
    if forall i :: 0 <= i < |s| ==> s[i].id != Some(id) {
      FilterAll(s, NaoTemId(id));
    }
    FilterAll(Dismiss(s, id), NaoTemId(id));
  }

  /** Adding a toast under an id no toast has, then dismissing that id, gives back the list. */
  lemma AdicionarEDispensar(s: seq<Toast>, opts: Opcoes, gerado: string, agora: int)
    requires forall i :: 0 <= i < |s| ==> s[i].id != Some(Ou(opts.id, gerado))
    ensures var (s2, id) := AdicionarToast(s, opts, gerado, agora); Dismiss(s2, id) == s
  {
    var (s2, id) := AdicionarToast(s, opts, gerado, agora);
    assert s2 == s + [NovoToast(opts, gerado, agora)];
    FilterAppend(s, [NovoToast(opts, gerado, agora)], NaoTemId(id));
    FilterAll(s, NaoTemId(id));
  }

  /** `{...t, ...opts}`: a property present in the options replaces the toast's, even with `undefined`. */
  function Espalhar<T>(c: Campo<T>, atual: Option<T>): Option<T> {
    match c
    case Ausente => atual
    case Indefinido => None
    case Def(v) => Some(v)
  }

  /** `opts.x ?? t.x`: a missing or `undefined` option keeps the toast's value. */
  function OuAtual<T>(c: Campo<T>, atual: Option<T>): (r: Option<T>)
    ensures c.Def? ==> r == Some(c.v)
    ensures !c.Def? ==> r == atual
  {
    if c.Def? then Some(c.v) else atual
  }

  /** The toast an update turns `t` into. */
  function Atualizar(t: Toast, opts: Atualizacao): (r: Toast)
    ensures r.createdAt == t.createdAt
  {
    Toast(Espalhar(opts.id, t.id), Espalhar(opts.title, t.title), Espalhar(opts.description, t.description),
          Espalhar(opts.variant, t.variant), Espalhar(opts.duration, t.duration), t.createdAt,
          OuAtual(opts.showProgress, t.showProgress), OuAtual(opts.progressValue, t.progressValue),
          OuAtual(opts.progressMax, t.progressMax), OuAtual(opts.progressLabel, t.progressLabel))
  }

  /** An update that passes the progress fields as `undefined` keeps them, while the same update
      of the title clears it; an update with nothing present changes nothing. */
  lemma ProgressoIndefinidoMantido(t: Toast, opts: Atualizacao)
    requires opts.showProgress == Indefinido && opts.progressValue == Indefinido
    requires opts.progressMax == Indefinido && opts.progressLabel == Indefinido
    ensures var r := Atualizar(t, opts);
      r.showProgress == t.showProgress && r.progressValue == t.progressValue
      && r.progressMax == t.progressMax && r.progressLabel == t.progressLabel
    ensures opts.title == Indefinido ==> Atualizar(t, opts).title.None?
    ensures opts == Atualizacao(Ausente, Ausente, Ausente, Ausente, Ausente, Indefinido, Indefinido, Indefinido, Indefinido) ==>
      Atualizar(t, opts) == t
  {
  }

  /** `updateToast(id, opts)`: the toasts with that id updated, the others as they were. */
  function UpdateToast(s: seq<Toast>, id: string, opts: Atualizacao): (r: seq<Toast>)
    ensures |r| == |s|
    ensures forall i :: 0 <= i < |s| && s[i].id != Some(id) ==> r[i] == s[i]
    ensures forall i :: 0 <= i < |s| && s[i].id == Some(id) ==> r[i] == Atualizar(s[i], opts)
  {
    if |s| == 0 then []
    else UpdateToast(s[..|s| - 1], id, opts) + [if s[|s| - 1].id == Some(id) then Atualizar(s[|s| - 1], opts) else s[|s| - 1]]
  }

  /** An update that does not change ids, followed by dismissing that id, is the dismissal alone. */
  lemma {:induction false} AtualizarEDispensar(s: seq<Toast>, id: string, opts: Atualizacao)
    requires opts.id == Ausente
    ensures Dismiss(UpdateToast(s, id, opts), id) == Dismiss(s, id)
    decreases |s|
  {
    if |s| > 0 {
      var init := s[..|s| - 1];
      AtualizarEDispensar(init, id, opts);
      assert UpdateToast(s, id, opts)[..|s| - 1] == UpdateToast(init, id, opts);
    }
  }

  function Inverter<T>(s: seq<T>): (r: seq<T>)
    ensures |r| == |s|
    ensures forall i :: 0 <= i < |s| ==> r[i] == s[|s| - 1 - i]
  {
    if |s| == 0 then [] else [s[|s| - 1]] + Inverter(s[..|s| - 1])
  }

  /** `toasts.slice(-3).reverse()`. */
  function Pilha(s: seq<Toast>): (r: seq<Toast>)
    ensures |r| == if |s| < MAX_STACK then |s| else MAX_STACK
    ensures forall i :: 0 <= i < |r| ==> r[i] == s[|s| - 1 - i]
  {
    Inverter(s[if |s| < MAX_STACK then 0 else |s| - MAX_STACK..])
  }

  /** A toast just added is on top of the stack, above the two before it. */
  lemma NovoNoTopo(s: seq<Toast>, opts: Opcoes, gerado: string, agora: int)
    ensures var r := Pilha(AdicionarToast(s, opts, gerado, agora).0);
      r[0] == NovoToast(opts, gerado, agora) && r[1..] == Pilha(s)[..|r| - 1]
  {
  }
}
