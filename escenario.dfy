/** One afternoon of the attendance flow, start to finish: a teacher opens
    a course, a student enrolls and registers twice, another teacher and an
    unenrolled student are turned away. */
module Escenario {
  import opened Modelos
  import opened Consultas
  import opened Vistas

  /** Users 1 and 3 are teachers, 2 and 4 students. */
  const Plantel: map<Id, Usuario> := map[1 := Usuario(true), 2 := Usuario(), 3 := Usuario(true), 4 := Usuario()]

  /** Teacher 1 creates course 1, student 2 enrolls in it at time 10 and the
      teacher opens session 1 of it on day 5. */
  method Preparar() returns (a: Almacen, uuid: Uuid)
    ensures fresh(a) && a.Valid()
    ensures a.usuarios == Plantel
    ensures a.cursos == map[1 := Curso("Calculo", "", 1)]
    ensures a.inscripciones == map[1 := Inscripcion(2, 1, 10)]
    ensures a.sesiones == map[1 := Sesion(1, 5, uuid)]
    ensures a.asistencias == map[] && a.proxAsistencia == 1
  {
    a := new Almacen(Plantel);
    var r := a.CrearCurso(1, Post(FormCurso("Calculo", "")));
    assert r == Redirect;
    var e := a.CursosDisponibles(2, Post(Some(1)), 10);
    assert e == Redirect;
    r := a.CrearSesion(1, 1, 5);
    assert r == Redirect;
    uuid := a.sesiones[1].uuid;
  }

  /** With a single session, its token finds it. */
  lemma SesionUnica(id: Id, x: Sesion)
    ensures UuidsUnicos(map[id := x])
    ensures BuscarPorUuid(map[id := x], x.uuid) == Some(id)
  {
    assert map[id := x][id].uuid == x.uuid;
  }

  /** Student 2 scans the token of session 1 at time 11: the row is stored. */
  method PrimerRegistro(a: Almacen, uuid: Uuid) returns (r: Respuesta<()>)
    requires a.Valid() && a.usuarios == Plantel
    requires a.cursos == map[1 := Curso("Calculo", "", 1)]
    requires a.inscripciones == map[1 := Inscripcion(2, 1, 10)]
    requires a.sesiones == map[1 := Sesion(1, 5, uuid)]
    requires a.asistencias == map[] && a.proxAsistencia == 1
    modifies a
    ensures r == Ok(())
    ensures a.Valid() && a.usuarios == Plantel
    ensures a.cursos == map[1 := Curso("Calculo", "", 1)]
    ensures a.inscripciones == map[1 := Inscripcion(2, 1, 10)]
    ensures a.sesiones == map[1 := Sesion(1, 5, uuid)]
    ensures a.asistencias == map[1 := Asistencia(1, 2, 11)]
  {
    SesionUnica(1, Sesion(1, 5, uuid));
    assert Inscrito(a.inscripciones, 2, 1);
    r := a.RegistrarAsistencia(2, uuid, 11);
  }

  /** Student 2 registers twice, student 4 (not enrolled) tries, and both
      teachers ask for the attendees. */
  method Tarde() returns (primera: Respuesta<()>, segunda: Respuesta<()>, ajena: Respuesta<()>,
                          otroDocente: Respuesta<set<Id>>, propio: Respuesta<set<Id>>)
    ensures primera == Ok(())
    ensures segunda == BadRequest400
    ensures ajena == Forbidden403
    ensures otroDocente == Forbidden403
    ensures propio == Ok({1})
  {
    var a, uuid := Preparar();
    primera := PrimerRegistro(a, uuid);
    SesionUnica(1, Sesion(1, 5, uuid));
    assert YaAsistio(a.asistencias, 1, 2);
    segunda := a.RegistrarAsistencia(2, uuid, 12);
    ajena := a.RegistrarAsistencia(4, uuid, 13);
    otroDocente := a.VerAsistentes(3, 1);
    propio := a.VerAsistentes(1, 1);
    assert a.asistencias == map[1 := Asistencia(1, 2, 11)];
    assert propio.cuerpo == {1} by {
      assert 1 in propio.cuerpo;
    }
  }
}
