/** The five tables of the attendance application (users, courses,
    enrollments, sessions, attendance rows) and the uniqueness constraints
    the database enforces on them. Each table is a map from the row's
    auto-increment id to the row; a foreign key is the id of the row it
    points to. */
module Modelos {

  type Id = nat

  /** A session's `uuid`, abstracted to a natural number. */
  type Uuid = nat

  /** A clock reading (a date or a timestamp). */
  type Fecha = nat

  /** A user of the application; `es_docente` is false unless set. */
  datatype Usuario = Usuario(esDocente: bool := false)

  /** A user is a student exactly when the teacher flag is not set. */
  predicate EsEstudiante(u: Usuario)
  {
    !u.esDocente
  }

  /** A course and the teacher (`docente`) who owns it. */
  datatype Curso = Curso(nombre: string, descripcion: string, docente: Id)

  /** `max_length` of a course's `nombre`. */
  const LargoNombreCurso: nat := 100

  /** A course name the course form accepts: required, at most `max_length`. */
  predicate NombreCursoValido(nombre: string)
  {
    0 < |nombre| <= LargoNombreCurso
  }

  /** A student's enrollment in a course, stamped on creation. */
  datatype Inscripcion = Inscripcion(estudiante: Id, curso: Id, fecha: Fecha)

  /** One dated attendance-taking session of a course, with its token. */
  datatype Sesion = Sesion(curso: Id, fecha: Fecha, uuid: Uuid)

  /** One student's presence at one session, stamped on creation. */
  datatype Asistencia = Asistencia(sesion: Id, estudiante: Id, fechaHora: Fecha)

  /** `unique_together = ('estudiante', 'curso')` on enrollments. */
  predicate InscripcionesUnicas(ins: map<Id, Inscripcion>)
  {
    forall i, j ::
      i in ins && j in ins && ins[i].estudiante == ins[j].estudiante && ins[i].curso == ins[j].curso
      ==> i == j
  }

  /** `unique=True` on a session's `uuid`. */
  predicate UuidsUnicos(ses: map<Id, Sesion>)
  {
    forall s, t :: s in ses && t in ses && ses[s].uuid == ses[t].uuid ==> s == t
  }

  /** `unique_together = ('sesion', 'estudiante')` on attendance rows. */
  predicate AsistenciasUnicas(asis: map<Id, Asistencia>)
  {
    forall a, b ::
      a in asis && b in asis && asis[a].sesion == asis[b].sesion && asis[a].estudiante == asis[b].estudiante
      ==> a == b
  }

  datatype Option<T> = None | Some(value: T)

  /** All five tables at one moment. */
  datatype Tablas = Tablas(
    usuarios: map<Id, Usuario>,
    cursos: map<Id, Curso>,
    inscripciones: map<Id, Inscripcion>,
    sesiones: map<Id, Sesion>,
    asistencias: map<Id, Asistencia>)

  /** Every foreign key names an existing row. */
  ghost predicate Referencias(t: Tablas)
  {
    && (forall c :: c in t.cursos ==> t.cursos[c].docente in t.usuarios)
    && (forall i :: i in t.inscripciones ==>
          t.inscripciones[i].estudiante in t.usuarios && t.inscripciones[i].curso in t.cursos)
    && (forall s :: s in t.sesiones ==> t.sesiones[s].curso in t.cursos)
    && (forall a :: a in t.asistencias ==>
          t.asistencias[a].sesion in t.sesiones && t.asistencias[a].estudiante in t.usuarios)
  }

  /** The three uniqueness constraints. */
  ghost predicate Unicas(t: Tablas)
  {
    InscripcionesUnicas(t.inscripciones) && UuidsUnicos(t.sesiones) && AsistenciasUnicas(t.asistencias)
  }

  /** `Inscripcion.objects.filter(estudiante=u, curso=c).exists()` */
  predicate Inscrito(ins: map<Id, Inscripcion>, u: Id, c: Id)
  {
    exists i :: i in ins && ins[i].estudiante == u && ins[i].curso == c
  }

  /** `Asistencia.objects.filter(sesion=s, estudiante=u).exists()` */
  predicate YaAsistio(asis: map<Id, Asistencia>, s: Id, u: Id)
  {
    exists a :: a in asis && asis[a].sesion == s && asis[a].estudiante == u
  }

  /** What the views' guards keep true of the tables: every course belongs
      to a teacher and has a name the course form accepts, only students
      enroll, and only a student enrolled in a session's course has an
      attendance row for it. */
  ghost predicate Reglas(t: Tablas)
    requires Referencias(t)
  {
    && (forall c :: c in t.cursos ==>
          t.usuarios[t.cursos[c].docente].esDocente && NombreCursoValido(t.cursos[c].nombre))
    && (forall i :: i in t.inscripciones ==> EsEstudiante(t.usuarios[t.inscripciones[i].estudiante]))
    && (forall a :: a in t.asistencias ==>
          Inscrito(t.inscripciones, t.asistencias[a].estudiante, t.sesiones[t.asistencias[a].sesion].curso))
  }

  ghost predicate Consistente(t: Tablas)
  {
    Referencias(t) && Unicas(t) && Reglas(t)
  }

  /** Deleting session `s` (`on_delete=CASCADE`): its attendance rows go with it. */
  function BorrarSesion(t: Tablas, s: Id): (r: Tablas)
    ensures s !in r.sesiones
    ensures forall a :: a in r.asistencias ==> r.asistencias[a].sesion != s
    ensures r.usuarios == t.usuarios && r.cursos == t.cursos && r.inscripciones == t.inscripciones
    ensures forall x :: x in t.sesiones && x != s ==> x in r.sesiones && r.sesiones[x] == t.sesiones[x]
    ensures forall a :: a in t.asistencias && t.asistencias[a].sesion != s ==>
      a in r.asistencias && r.asistencias[a] == t.asistencias[a]
  {
    t.(sesiones := t.sesiones - {s},
       asistencias := map a | a in t.asistencias && t.asistencias[a].sesion != s :: t.asistencias[a])
  }

  /** Deleting course `c` (`on_delete=CASCADE`): its enrollments and its
      sessions go with it, and so do those sessions' attendance rows. */
  function BorrarCurso(t: Tablas, c: Id): (r: Tablas)
    ensures c !in r.cursos
    ensures forall i :: i in r.inscripciones ==> r.inscripciones[i].curso != c
    ensures forall s :: s in r.sesiones ==> r.sesiones[s].curso != c
    ensures r.usuarios == t.usuarios
    ensures forall d :: d in t.cursos && d != c ==> d in r.cursos && r.cursos[d] == t.cursos[d]
    ensures forall i :: i in t.inscripciones && t.inscripciones[i].curso != c ==>
      i in r.inscripciones && r.inscripciones[i] == t.inscripciones[i]
    ensures forall s :: s in t.sesiones && t.sesiones[s].curso != c ==>
      s in r.sesiones && r.sesiones[s] == t.sesiones[s]
    ensures forall a :: a in t.asistencias && t.asistencias[a].sesion in r.sesiones ==>
      a in r.asistencias && r.asistencias[a] == t.asistencias[a]
  {
    var ses := map s | s in t.sesiones && t.sesiones[s].curso != c :: t.sesiones[s];
    Tablas(
      t.usuarios,
      t.cursos - {c},
      map i | i in t.inscripciones && t.inscripciones[i].curso != c :: t.inscripciones[i],
      ses,
      map a | a in t.asistencias && t.asistencias[a].sesion in ses :: t.asistencias[a])
  }

  /** Deleting user `u` (`on_delete=CASCADE`): the courses they own go, with
      everything hanging from them, and so do their own enrollments and
      attendance rows. */
  function BorrarUsuario(t: Tablas, u: Id): (r: Tablas)
    ensures u !in r.usuarios
    ensures forall c :: c in r.cursos ==> r.cursos[c].docente != u
    ensures forall i :: i in r.inscripciones ==> r.inscripciones[i].estudiante != u
    ensures forall a :: a in r.asistencias ==> r.asistencias[a].estudiante != u
    ensures forall v :: v in t.usuarios && v != u ==> v in r.usuarios && r.usuarios[v] == t.usuarios[v]
    ensures forall c :: c in t.cursos && t.cursos[c].docente != u ==> c in r.cursos && r.cursos[c] == t.cursos[c]
    ensures forall i ::
      i in t.inscripciones && t.inscripciones[i].estudiante != u && t.inscripciones[i].curso in r.cursos
      ==> i in r.inscripciones && r.inscripciones[i] == t.inscripciones[i]
    ensures forall s :: s in t.sesiones && t.sesiones[s].curso in r.cursos ==>
      s in r.sesiones && r.sesiones[s] == t.sesiones[s]
    ensures forall a ::
      a in t.asistencias && t.asistencias[a].estudiante != u && t.asistencias[a].sesion in r.sesiones
      ==> a in r.asistencias && r.asistencias[a] == t.asistencias[a]
  {
    var cs := map c | c in t.cursos && t.cursos[c].docente != u :: t.cursos[c];
    var ses := map s | s in t.sesiones && t.sesiones[s].curso in cs :: t.sesiones[s];
    Tablas(
      t.usuarios - {u},
      cs,
      map i | i in t.inscripciones && t.inscripciones[i].estudiante != u && t.inscripciones[i].curso in cs
            :: t.inscripciones[i],
      ses,
      map a | a in t.asistencias && t.asistencias[a].estudiante != u && t.asistencias[a].sesion in ses
            :: t.asistencias[a])
  }

  /** Inserting an enrollment of a student in an existing course that the
      student is not yet enrolled in keeps the tables consistent; in
      particular no (student, course) pair is enrolled twice. */
  lemma InscribirConserva(t: Tablas, id: Id, u: Id, c: Id, f: Fecha)
    requires Consistente(t)
    requires id !in t.inscripciones && u in t.usuarios && EsEstudiante(t.usuarios[u])
    requires c in t.cursos && !Inscrito(t.inscripciones, u, c)
    ensures Consistente(t.(inscripciones := t.inscripciones[id := Inscripcion(u, c, f)]))
  {
    var r := t.(inscripciones := t.inscripciones[id := Inscripcion(u, c, f)]);
    InscribirUnicas(t.inscripciones, id, u, c, f);
    InscribirJustifica(t.inscripciones, r.inscripciones, id, Inscripcion(u, c, f));
    assert Referencias(r);
    InscribirReglas(t, r);
  }

  lemma InscribirUnicas(ins: map<Id, Inscripcion>, id: Id, u: Id, c: Id, f: Fecha)
    requires InscripcionesUnicas(ins) && id !in ins && !Inscrito(ins, u, c)
    ensures InscripcionesUnicas(ins[id := Inscripcion(u, c, f)])
  {
  }

  /** Adding a row keeps every earlier enrollment. */
  lemma InscribirJustifica(ins: map<Id, Inscripcion>, ins': map<Id, Inscripcion>, id: Id, x: Inscripcion)
    requires id !in ins && ins' == ins[id := x]
    ensures forall v, d :: Inscrito(ins, v, d) ==> Inscrito(ins', v, d)
  {
    forall v, d | Inscrito(ins, v, d) ensures Inscrito(ins', v, d) {
      var i :| i in ins && ins[i].estudiante == v && ins[i].curso == d;
      assert ins'[i] == ins[i];
    }
  }

  lemma InscribirReglas(t: Tablas, r: Tablas)
    requires Referencias(t) && Reglas(t) && Referencias(r)
    requires r.usuarios == t.usuarios && r.cursos == t.cursos && r.sesiones == t.sesiones
    requires r.asistencias == t.asistencias
    requires forall i :: i in r.inscripciones ==> EsEstudiante(r.usuarios[r.inscripciones[i].estudiante])
    requires forall v, d :: Inscrito(t.inscripciones, v, d) ==> Inscrito(r.inscripciones, v, d)
    ensures Reglas(r)
  {
  }

  /** Inserting a course owned by a teacher, under a name the course form
      accepts, keeps the tables consistent. */
  lemma CrearCursoConserva(t: Tablas, id: Id, x: Curso)
    requires Consistente(t) && id !in t.cursos
    requires x.docente in t.usuarios && t.usuarios[x.docente].esDocente
    requires NombreCursoValido(x.nombre)
    ensures Consistente(t.(cursos := t.cursos[id := x]))
  {
  }

  /** Inserting a session of an existing course under a token no other
      session holds keeps the tables consistent. */
  lemma CrearSesionConserva(t: Tablas, id: Id, x: Sesion)
    requires Consistente(t) && id !in t.sesiones && x.curso in t.cursos
    requires forall s :: s in t.sesiones ==> t.sesiones[s].uuid != x.uuid
    ensures Consistente(t.(sesiones := t.sesiones[id := x]))
  {
    var r := t.(sesiones := t.sesiones[id := x]);
    assert forall a :: a in r.asistencias ==> r.sesiones[r.asistencias[a].sesion] == t.sesiones[t.asistencias[a].sesion];
  }

  /** Inserting the first attendance row of an enrolled student for an
      existing session keeps the tables consistent; in particular no
      (session, student) pair is registered twice. */
  lemma RegistrarConserva(t: Tablas, id: Id, x: Asistencia)
    requires Consistente(t) && id !in t.asistencias
    requires x.sesion in t.sesiones && x.estudiante in t.usuarios
    requires Inscrito(t.inscripciones, x.estudiante, t.sesiones[x.sesion].curso)
    requires !YaAsistio(t.asistencias, x.sesion, x.estudiante)
    ensures Consistente(t.(asistencias := t.asistencias[id := x]))
  {
  }

  /** Every key in use lies below the next key its table's auto-increment
      counter hands out. */
  ghost predicate ClavesBajo(t: Tablas, pc: Id, pi: Id, ps: Id, pa: Id)
  {
    && (forall c :: c in t.cursos ==> c < pc)
    && (forall i :: i in t.inscripciones ==> i < pi)
    && (forall s :: s in t.sesiones ==> s < ps)
    && (forall a :: a in t.asistencias ==> a < pa)
  }

  /** Every row of `r` is a row of `t`, unchanged. */
  ghost predicate Subtablas(r: Tablas, t: Tablas)
  {
    && (forall u :: u in r.usuarios ==> u in t.usuarios && r.usuarios[u] == t.usuarios[u])
    && (forall c :: c in r.cursos ==> c in t.cursos && r.cursos[c] == t.cursos[c])
    && (forall i :: i in r.inscripciones ==> i in t.inscripciones && r.inscripciones[i] == t.inscripciones[i])
    && (forall s :: s in r.sesiones ==> s in t.sesiones && r.sesiones[s] == t.sesiones[s])
    && (forall a :: a in r.asistencias ==> a in t.asistencias && r.asistencias[a] == t.asistencias[a])
  }

  /** Every enrollment of `t` that justifies an attendance row kept in `r`
      is kept in `r` too. */
  ghost predicate ConservaJustificantes(r: Tablas, t: Tablas)
    requires Referencias(r)
  {
    forall a, i ::
      a in r.asistencias && i in t.inscripciones
      && t.inscripciones[i].estudiante == r.asistencias[a].estudiante
      && t.inscripciones[i].curso == r.sesiones[r.asistencias[a].sesion].curso
      ==> i in r.inscripciones
  }

  /** A sub-collection of rows of tables meeting the uniqueness constraints
      meets them too. */
  lemma SubtablasUnicas(t: Tablas, r: Tablas)
    requires Unicas(t) && Subtablas(r, t)
    ensures Unicas(r)
  {
  }

  /** A sub-collection of rows without dangling references that keeps the
      enrollments its attendance rows rely on keeps the views' rules. */
  lemma SubtablasReglas(t: Tablas, r: Tablas)
    requires Referencias(t) && Reglas(t) && Subtablas(r, t) && Referencias(r) && ConservaJustificantes(r, t)
    ensures Reglas(r)
  {
    forall a | a in r.asistencias
      ensures Inscrito(r.inscripciones, r.asistencias[a].estudiante, r.sesiones[r.asistencias[a].sesion].curso)
    {
      var v, d := r.asistencias[a].estudiante, r.sesiones[r.asistencias[a].sesion].curso;
      assert Inscrito(t.inscripciones, v, d);
      var i :| i in t.inscripciones && t.inscripciones[i].estudiante == v && t.inscripciones[i].curso == d;
      assert i in r.inscripciones;
    }
  }

  lemma SubtablasConsistentes(t: Tablas, r: Tablas)
    requires Consistente(t) && Subtablas(r, t) && Referencias(r) && ConservaJustificantes(r, t)
    ensures Consistente(r)
  {
    SubtablasUnicas(t, r);
    SubtablasReglas(t, r);
  }

  lemma BorrarSesionRecorta(t: Tablas, s: Id)
    requires Referencias(t)
    ensures Subtablas(BorrarSesion(t, s), t) && Referencias(BorrarSesion(t, s))
    ensures ConservaJustificantes(BorrarSesion(t, s), t)
  {
    BorrarSesionSubtablas(t, s);
  }

  lemma BorrarSesionSubtablas(t: Tablas, s: Id)
    ensures Subtablas(BorrarSesion(t, s), t)
  {
  }

  lemma BorrarCursoRecorta(t: Tablas, c: Id)
    requires Referencias(t)
    ensures Subtablas(BorrarCurso(t, c), t) && Referencias(BorrarCurso(t, c))
    ensures ConservaJustificantes(BorrarCurso(t, c), t)
  {
    BorrarCursoSubtablas(t, c);
  }

  lemma BorrarCursoSubtablas(t: Tablas, c: Id)
    ensures Subtablas(BorrarCurso(t, c), t)
  {
  }

  lemma BorrarUsuarioRecorta(t: Tablas, u: Id)
    requires Referencias(t)
    ensures Subtablas(BorrarUsuario(t, u), t) && Referencias(BorrarUsuario(t, u))
    ensures ConservaJustificantes(BorrarUsuario(t, u), t)
  {
    BorrarUsuarioSubtablas(t, u);
  }

  lemma BorrarUsuarioSubtablas(t: Tablas, u: Id)
    ensures Subtablas(BorrarUsuario(t, u), t)
  {
  }

  /** Deleting rows hands no counter a key still to come. */
  lemma SubtablasClaves(t: Tablas, r: Tablas, pc: Id, pi: Id, ps: Id, pa: Id)
    requires ClavesBajo(t, pc, pi, ps, pa) && Subtablas(r, t)
    ensures ClavesBajo(r, pc, pi, ps, pa)
  {
  }

  /** Deleting a session keeps the tables consistent. */
  lemma BorrarSesionConserva(t: Tablas, s: Id)
    requires Consistente(t)
    ensures Consistente(BorrarSesion(t, s))
    ensures Subtablas(BorrarSesion(t, s), t)
  {
    BorrarSesionRecorta(t, s);
    SubtablasConsistentes(t, BorrarSesion(t, s));
  }

  /** Deleting a course keeps the tables consistent. */
  lemma BorrarCursoConserva(t: Tablas, c: Id)
    requires Consistente(t)
    ensures Consistente(BorrarCurso(t, c))
    ensures Subtablas(BorrarCurso(t, c), t)
  {
    BorrarCursoRecorta(t, c);
    SubtablasConsistentes(t, BorrarCurso(t, c));
  }

  /** Deleting a user keeps the tables consistent. */
  lemma BorrarUsuarioConserva(t: Tablas, u: Id)
    requires Consistente(t)
    ensures Consistente(BorrarUsuario(t, u))
    ensures Subtablas(BorrarUsuario(t, u), t)
  {
    BorrarUsuarioRecorta(t, u);
    SubtablasConsistentes(t, BorrarUsuario(t, u));
  }

  /** A user created without giving the flag is a student. */
  lemma UsuarioNuevoEsEstudiante()
    ensures EsEstudiante(Usuario())
  {
  }
}
