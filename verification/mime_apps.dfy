/** The `XdgMimeApps` facade: a process-wide private state holding one
    backend, and two guarded operations that forward to it.

    The backend (the GLib adapter) is opaque: what it answers is a parameter.
    Each facade operation returns its value together with the calls that
    reached the backend, so "rejected inputs never reach the backend" and
    "accepted inputs are forwarded unchanged" are statements about that trace.
    The mutex around each backend call serialises threads and has no effect
    on a single call's result, so it is not modelled. */
module MimeApps {
  import opened Wrappers
  import opened Desktop

  /** One call that reached the backend. */
  datatype BackendCall =
    | DefaultAppCall(mimeType: string)
    | SetDefaultAppCall(mimeType: string, app: DesktopFile)

  /** The default-application service, seen only through its two answers. */
  datatype Backend = Backend(
    defaultApp: string -> Option<DesktopFile>,
    setDefaultApp: (string, DesktopFile) -> bool)

  /** `XdgMimeAppsPrivate`: the one backend of the process. */
  datatype Private = Private(backend: Backend)

  /** The `Q_GLOBAL_STATIC` slot, empty until the first access. */
  datatype Global = Unset | Set(instance: Private)

  /** An `XdgMimeApps` object: nothing but its reference `d` to the private state. */
  datatype Facade = Facade(d: Private)

  /** A value together with the backend calls made to produce it. */
  datatype Traced<+T> = Traced(value: T, calls: seq<BackendCall>)

  /** The global accessor: the first access stores `build`, every later one
      returns what is stored, whatever it is offered. */
  function Instance(g: Global, build: Private): (r: (Global, Private))
    ensures r.0 == Set(r.1)
    ensures g.Set? ==> r.0 == g
    ensures g.Unset? ==> r.1 == build
  {
    match g
    case Unset => (Set(build), build)
    case Set(p) => (g, p)
  }

  /** The `XdgMimeApps` constructor binds `d` to the global instance. */
  function NewFacade(g: Global, build: Private): (r: (Global, Facade))
    ensures r.0.Set? && r.1.d == r.0.instance
    ensures g.Set? ==> r.0 == g
  {
    var (g', p) := Instance(g, build);
    (g', Facade(p))
  }

  /** Constructs one facade per entry of `builds`, in order, each access
      offering its own candidate private state. All of them end up sharing
      the one instance: the stored one, or else the first candidate. */
  function NewFacades(g: Global, builds: seq<Private>): (r: (Global, seq<Facade>))
    ensures |r.1| == |builds|
    ensures |builds| > 0 ==> r.0.Set?
    ensures r.0.Set? ==> forall i :: 0 <= i < |r.1| ==> r.1[i].d == r.0.instance
    ensures g.Set? ==> r.0 == g
    ensures g.Unset? && |builds| > 0 ==> r.0 == Set(builds[0])
    ensures g.Unset? && |builds| == 0 ==> r.0 == Unset
    decreases |builds|
  {
    if |builds| == 0 then (g, [])
    else
      var (g1, f) := NewFacade(g, builds[0]);
      var (g2, fs) := NewFacades(g1, builds[1..]);
      (g2, [f] + fs)
  }

  /** The guard of `setDefaultApp`: a non-empty MIME type, a valid desktop
      file, and a non-empty id derived from its file name. */
  predicate SetAdmissible(api: DesktopApi, mimeType: string, app: DesktopFile) {
    mimeType != [] && app.valid && api.id(app.fileName) != []
  }

  /** What a backend call may carry: the guard of the facade operation it
      came from. */
  predicate CallAdmissible(api: DesktopApi, c: BackendCall) {
    match c
    case DefaultAppCall(m) => m != []
    case SetDefaultAppCall(m, app) => SetAdmissible(api, m, app)
  }

  /** Every call of a trace satisfies the guard of the operation that sent it. */
  predicate AllAdmissible(api: DesktopApi, calls: seq<BackendCall>) {
    forall i :: 0 <= i < |calls| ==> CallAdmissible(api, calls[i])
  }

  /** `XdgMimeApps::defaultApp`. An empty MIME type yields null without
      touching the backend; any other is asked of the backend once, and its
      answer is returned as is. */
  function DefaultApp(f: Facade, mimeType: string): (r: Traced<Option<DesktopFile>>)
    ensures r.calls == [] <==> mimeType == []
    ensures mimeType == [] ==> r.value == None
    ensures mimeType != [] ==>
      r.calls == [DefaultAppCall(mimeType)] && r.value == f.d.backend.defaultApp(mimeType)
  {
    if mimeType == [] then Traced(None, [])
    else Traced(f.d.backend.defaultApp(mimeType), [DefaultAppCall(mimeType)])
  }

  /** `XdgMimeApps::setDefaultApp`. An empty MIME type, an invalid desktop
      file or an empty derived id yields false without touching the backend;
      otherwise the pair is forwarded once, unchanged, and the backend's
      verdict is the result. */
  function SetDefaultApp(f: Facade, api: DesktopApi, mimeType: string, app: DesktopFile): (r: Traced<bool>)
    ensures r.calls == [] <==> !SetAdmissible(api, mimeType, app)
    ensures r.calls == [] ==> !r.value
    ensures r.calls != [] ==>
      r.calls == [SetDefaultAppCall(mimeType, app)]
      && r.value == f.d.backend.setDefaultApp(mimeType, app)
    ensures r.value ==> mimeType != [] && app.valid && api.id(app.fileName) != []
  {
    if mimeType == [] || !app.valid then Traced(false, [])
    else if api.id(app.fileName) == [] then Traced(false, [])
    else Traced(f.d.backend.setDefaultApp(mimeType, app), [SetDefaultAppCall(mimeType, app)])
  }

  /** Whatever reaches the backend through the facade satisfies the guard of
      the operation that sent it. */
  lemma CallsAreAdmissible(f: Facade, api: DesktopApi, mimeType: string, app: DesktopFile)
    ensures AllAdmissible(api, DefaultApp(f, mimeType).calls)
    ensures AllAdmissible(api, SetDefaultApp(f, api, mimeType, app).calls)
  {
  }

  /** Two facades, however obtained from the same process, answer every
      query identically: they consult one backend. */
  lemma FacadesAgree(g: Global, b1: Private, b2: Private, api: DesktopApi, mimeType: string, app: DesktopFile)
    ensures var (g1, f1) := NewFacade(g, b1);
            var (_, f2) := NewFacade(g1, b2);
            DefaultApp(f1, mimeType) == DefaultApp(f2, mimeType)
            && SetDefaultApp(f1, api, mimeType, app) == SetDefaultApp(f2, api, mimeType, app)
  {
  }
}
