/** The ORM queries the views run against the tables, as functions of the
    tables they read: existence checks (`.exists()`), lookups (`.get()`),
    filters (`.filter()`, `.exclude()`) and orderings (`.order_by()`). */
module Consultas {
  import opened Modelos
  import opened Orden

  /** The tokens of all existing sessions. */
  function UuidsEnUso(ses: map<Id, Sesion>): set<Uuid>
  {
    set s | s in ses :: ses[s].uuid
  }

  /** `Sesion.objects.get(uuid=uuid)`: the one session holding the token, if any. */
  function BuscarPorUuid(ses: map<Id, Sesion>, uuid: Uuid): (r: Option<Id>)
    requires UuidsUnicos(ses)
    ensures r.Some? <==> uuid in UuidsEnUso(ses)
    ensures r.Some? ==> r.value in ses && ses[r.value].uuid == uuid
  {
    if exists s :: s in ses && ses[s].uuid == uuid then
      var s :| s in ses && ses[s].uuid == uuid;
      Some(s)
    else
      None
  }

  /** `Curso.objects.exclude(inscripcion__estudiante=u)` */
  function CursosNoInscritos(cursos: map<Id, Curso>, ins: map<Id, Inscripcion>, u: Id): set<Id>
  {
    set c | c in cursos && !Inscrito(ins, u, c)
  }

  /** `Curso.objects.filter(docente=d)` */
  function CursosDeDocente(cursos: map<Id, Curso>, d: Id): set<Id>
  {
    set c | c in cursos && cursos[c].docente == d
  }

  /** `Sesion.objects.filter(curso=c)` */
  function SesionesDeCurso(ses: map<Id, Sesion>, c: Id): set<Id>
  {
    set s | s in ses && ses[s].curso == c
  }

  /** `Asistencia.objects.filter(sesion=s)` */
  function AsistentesDe(asis: map<Id, Asistencia>, s: Id): set<Id>
  {
    set a | a in asis && asis[a].sesion == s
  }

  /** `Asistencia.objects.filter(estudiante=u)` */
  function AsistenciasDe(asis: map<Id, Asistencia>, u: Id): set<Id>
  {
    set a | a in asis && asis[a].estudiante == u
  }

  /** The ordering key `fecha` of a session. */
  function FechaDeSesion(ses: map<Id, Sesion>): Id -> int
  {
    s => if s in ses then ses[s].fecha else 0
  }

  /** The ordering key `sesion__fecha` of an attendance row. */
  function FechaDeAsistencia(ses: map<Id, Sesion>, asis: map<Id, Asistencia>): Id -> int
  {
    a => if a in asis && asis[a].sesion in ses then ses[asis[a].sesion].fecha else 0
  }

  /** `Sesion.objects.filter(curso=c).order_by('-fecha')` */
  function SesionesOrdenadas(ses: map<Id, Sesion>, c: Id): (r: seq<Id>)
    ensures multiset(r) == multiset(SesionesDeCurso(ses, c))
    ensures Descendente(r, FechaDeSesion(ses))
  {
    OrdenarDesc(Listado(SesionesDeCurso(ses, c)), FechaDeSesion(ses))
  }

  /** Any listing of a user's attendance rows names rows of that user, each
      for a course the user is enrolled in. */
  lemma AsistenciasPropias(t: Tablas, u: Id, xs: seq<Id>)
    requires Referencias(t) && Reglas(t)
    requires multiset(xs) == multiset(AsistenciasDe(t.asistencias, u))
    ensures forall k :: 0 <= k < |xs| ==>
      && xs[k] in t.asistencias
      && t.asistencias[xs[k]].estudiante == u
      && Inscrito(t.inscripciones, u, t.sesiones[t.asistencias[xs[k]].sesion].curso)
  {
    forall k | 0 <= k < |xs|
      ensures xs[k] in t.asistencias && t.asistencias[xs[k]].estudiante == u
    {
      assert xs[k] in multiset(xs);
    }
  }

  /** Teachers never hold attendance rows: every row belongs to an enrolled
      user, and only students enroll. */
  lemma DocenteSinAsistencias(t: Tablas, u: Id)
    requires Referencias(t) && Reglas(t) && u in t.usuarios && t.usuarios[u].esDocente
    ensures AsistenciasDe(t.asistencias, u) == {}
  {
    forall a | a in t.asistencias ensures t.asistencias[a].estudiante != u {
      var v, d := t.asistencias[a].estudiante, t.sesiones[t.asistencias[a].sesion].curso;
      var i :| i in t.inscripciones && t.inscripciones[i].estudiante == v && t.inscripciones[i].curso == d;
      assert EsEstudiante(t.usuarios[v]);
    }
  }

  /** One row of the teacher's history: a session and its attendance rows. */
  datatype FilaSesion = FilaSesion(sesion: Id, asistentes: set<Id>)

  /** One block of the teacher's history: a course and its sessions. */
  datatype FilaCurso = FilaCurso(curso: Id, sesiones: seq<FilaSesion>)

  function IdsSesiones(fs: seq<FilaSesion>): seq<Id>
  {
    seq(|fs|, k requires 0 <= k < |fs| => fs[k].sesion)
  }

  function IdsCursos(fs: seq<FilaCurso>): seq<Id>
  {
    seq(|fs|, k requires 0 <= k < |fs| => fs[k].curso)
  }

  lemma IdsSesionesAlFinal(fs: seq<FilaSesion>, f: FilaSesion)
    ensures IdsSesiones(fs + [f]) == IdsSesiones(fs) + [f.sesion]
  {
    assert forall k :: 0 <= k < |fs| ==> (fs + [f])[k] == fs[k];
  }

  lemma IdsCursosAlFinal(fs: seq<FilaCurso>, f: FilaCurso)
    ensures IdsCursos(fs + [f]) == IdsCursos(fs) + [f.curso]
  {
    assert forall k :: 0 <= k < |fs| ==> (fs + [f])[k] == fs[k];
  }

  /** The block of course `f.curso` lists each of its sessions once, newest
      first, each with exactly its attendance rows. */
  predicate HistorialDeCurso(ses: map<Id, Sesion>, asis: map<Id, Asistencia>, f: FilaCurso)
  {
    && multiset(IdsSesiones(f.sesiones)) == multiset(SesionesDeCurso(ses, f.curso))
    && Descendente(IdsSesiones(f.sesiones), FechaDeSesion(ses))
    && forall k :: 0 <= k < |f.sesiones| ==> f.sesiones[k].asistentes == AsistentesDe(asis, f.sesiones[k].sesion)
  }

  /** Enrolling `u` in `c` removes `c`, and only `c`, from the courses
      offered to `u`, and leaves every other user's offer as it was. */
  lemma InscribirRetiraCurso(cursos: map<Id, Curso>, ins: map<Id, Inscripcion>, u: Id, c: Id, id: Id, t: Fecha)
    requires id !in ins
    ensures CursosNoInscritos(cursos, ins[id := Inscripcion(u, c, t)], u) == CursosNoInscritos(cursos, ins, u) - {c}
    ensures forall v :: v != u ==>
      CursosNoInscritos(cursos, ins[id := Inscripcion(u, c, t)], v) == CursosNoInscritos(cursos, ins, v)
  {
    var ins' := ins[id := Inscripcion(u, c, t)];
    forall d ensures Inscrito(ins', u, d) <==> Inscrito(ins, u, d) || d == c {
      if Inscrito(ins', u, d) && d != c {
        var i :| i in ins' && ins'[i].estudiante == u && ins'[i].curso == d;
        assert i in ins && ins[i] == ins'[i];
      }
      if Inscrito(ins, u, d) {
        var i :| i in ins && ins[i].estudiante == u && ins[i].curso == d;
        assert ins'[i] == ins[i];
      }
      if d == c { assert ins'[id].curso == c; }
    }
    forall v, d | v != u ensures Inscrito(ins', v, d) <==> Inscrito(ins, v, d) {
      if Inscrito(ins', v, d) {
        var i :| i in ins' && ins'[i].estudiante == v && ins'[i].curso == d;
        assert i in ins && ins[i] == ins'[i];
      }
      if Inscrito(ins, v, d) {
        var i :| i in ins && ins[i].estudiante == v && ins[i].curso == d;
        assert ins'[i] == ins[i];
      }
    }
  }
}
