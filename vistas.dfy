/** The database as one object whose tables the views read and extend, and
    one member per view: the write views check their guards in the order
    the handlers do and then insert one row; the read views are queries.
    The authenticated requester is the user id `yo`; the clock is a
    parameter; template rendering and redirect targets become the tag of a
    `Respuesta`. */
module Vistas {
  import opened Modelos
  import opened Consultas
  import Orden

  /** What a handler answers. `Uncaught` stands for an exception the handler
      does not catch (`DoesNotExist`, `IntegrityError`). */
  datatype Respuesta<T> =
    | Ok(cuerpo: T)
    | Redirect
    | Forbidden403
    | NotFound404
    | BadRequest400
    | Uncaught

  /** The HTTP method of a request, with the POST data. */
  datatype Peticion<D> = Get | Post(datos: D)

  /** The fields of the course form. */
  datatype FormCurso = FormCurso(nombre: string, descripcion: string)

  /** The course form accepts a non-empty name of at most `max_length`
      characters; the description may be blank. */
  predicate FormCursoValido(f: FormCurso)
  {
    NombreCursoValido(f.nombre)
  }

  class Almacen {
    var usuarios: map<Id, Usuario>
    var cursos: map<Id, Curso>
    var inscripciones: map<Id, Inscripcion>
    var sesiones: map<Id, Sesion>
    var asistencias: map<Id, Asistencia>
    // The next id each table's auto-increment key hands out.
    var proxCurso: Id
    var proxInscripcion: Id
    var proxSesion: Id
    var proxAsistencia: Id

    /** The tables as a value. */
    function Estado(): Tablas
      reads this
    {
      Tablas(usuarios, cursos, inscripciones, sesiones, asistencias)
    }

    ghost predicate Valid()
      reads this
    {
      Consistente(Estado()) && ClavesBajo(Estado(), proxCurso, proxInscripcion, proxSesion, proxAsistencia)
    }

    /** A database holding the given users and nothing else. */
    constructor (usuarios0: map<Id, Usuario>)
      ensures Valid()
      ensures usuarios == usuarios0
      ensures cursos == map[] && inscripciones == map[] && sesiones == map[] && asistencias == map[]
      ensures proxCurso == 1 && proxInscripcion == 1 && proxSesion == 1 && proxAsistencia == 1
    {
      usuarios := usuarios0;
      cursos, inscripciones, sesiones, asistencias := map[], map[], map[], map[];
      proxCurso, proxInscripcion, proxSesion, proxAsistencia := 1, 1, 1, 1;
    }

    /** `crear_curso_view`: only a teacher may create a course, and the
        course is owned by the requester. */
    method CrearCurso(yo: Id, peticion: Peticion<FormCurso>) returns (r: Respuesta<()>)
      requires Valid() && yo in usuarios
      modifies this
      ensures Valid()
      ensures unchanged(this`usuarios, this`inscripciones, this`sesiones, this`asistencias)
      ensures unchanged(this`proxInscripcion, this`proxSesion, this`proxAsistencia)
      ensures !usuarios[yo].esDocente ==> r == Forbidden403
      ensures usuarios[yo].esDocente && !(peticion.Post? && FormCursoValido(peticion.datos)) ==> r == Ok(())
      ensures r == Redirect <==> usuarios[yo].esDocente && peticion.Post? && FormCursoValido(peticion.datos)
      ensures r != Redirect ==> unchanged(this)
      ensures r == Redirect ==>
        && old(proxCurso) !in old(cursos)
        && cursos == old(cursos)[old(proxCurso) := Curso(peticion.datos.nombre, peticion.datos.descripcion, yo)]
        && proxCurso == old(proxCurso) + 1
    {
      if !usuarios[yo].esDocente {
        return Forbidden403;
      }
      if peticion.Post? && FormCursoValido(peticion.datos) {
        CrearCursoConserva(Estado(), proxCurso, Curso(peticion.datos.nombre, peticion.datos.descripcion, yo));
        cursos := cursos[proxCurso := Curso(peticion.datos.nombre, peticion.datos.descripcion, yo)];
        proxCurso := proxCurso + 1;
        return Redirect;
      }
      return Ok(());
    }

    /** `cursos_disponibles_view`: teachers are refused; a GET lists the
        courses `yo` is not enrolled in; a POST enrolls `yo` in the course
        named by `curso_id`. A missing or unknown id raises `DoesNotExist`
        and a repeated enrollment violates the uniqueness constraint; the
        handler catches neither. */
    method CursosDisponibles(yo: Id, peticion: Peticion<Option<Id>>, ahora: Fecha) returns (r: Respuesta<set<Id>>)
      requires Valid() && yo in usuarios
      modifies this
      ensures Valid()
      ensures unchanged(this`usuarios, this`cursos, this`sesiones, this`asistencias)
      ensures unchanged(this`proxCurso, this`proxSesion, this`proxAsistencia)
      ensures usuarios[yo].esDocente ==> r == Forbidden403
      ensures !usuarios[yo].esDocente && peticion.Get? ==> r == Ok(CursosNoInscritos(cursos, inscripciones, yo))
      ensures !usuarios[yo].esDocente && peticion.Post? ==>
        if peticion.datos.Some? && peticion.datos.value in cursos
           && !Inscrito(old(inscripciones), yo, peticion.datos.value)
        then r == Redirect
        else r == Uncaught
      ensures r != Redirect ==> unchanged(this)
      ensures r == Redirect ==>
        && old(proxInscripcion) !in old(inscripciones)
        && inscripciones == old(inscripciones)[old(proxInscripcion) := Inscripcion(yo, peticion.datos.value, ahora)]
        && proxInscripcion == old(proxInscripcion) + 1
    {
      if usuarios[yo].esDocente {
        return Forbidden403;
      }
      match peticion
      case Get =>
        r := Ok(CursosNoInscritos(cursos, inscripciones, yo));
      case Post(cursoId) =>
        if cursoId.None? || cursoId.value !in cursos {
          return Uncaught;
        }
        var c := cursoId.value;
        if Inscrito(inscripciones, yo, c) {
          return Uncaught;
        }
        InscribirConserva(Estado(), proxInscripcion, yo, c, ahora);
        inscripciones := inscripciones[proxInscripcion := Inscripcion(yo, c, ahora)];
        proxInscripcion := proxInscripcion + 1;
        r := Redirect;
    }

    /** `crear_sesion_view`: only the teacher who owns the course may open a
        session; it is dated `hoy` and gets a token no other session holds.
        An unknown course id raises `DoesNotExist`, which is not caught. */
    method CrearSesion(yo: Id, cursoId: Id, hoy: Fecha) returns (r: Respuesta<()>)
      requires Valid() && yo in usuarios
      modifies this
      ensures Valid()
      ensures unchanged(this`usuarios, this`cursos, this`inscripciones, this`asistencias)
      ensures unchanged(this`proxCurso, this`proxInscripcion, this`proxAsistencia)
      ensures !usuarios[yo].esDocente ==> r == Forbidden403
      ensures usuarios[yo].esDocente && cursoId !in cursos ==> r == Uncaught
      ensures usuarios[yo].esDocente && cursoId in cursos && cursos[cursoId].docente != yo ==> r == Forbidden403
      ensures r == Redirect <==> usuarios[yo].esDocente && cursoId in cursos && cursos[cursoId].docente == yo
      ensures r != Redirect ==> unchanged(this)
      ensures r == Redirect ==>
        && old(proxSesion) !in old(sesiones)
        && old(proxSesion) in sesiones
        && sesiones == old(sesiones)[old(proxSesion) := Sesion(cursoId, hoy, sesiones[old(proxSesion)].uuid)]
        && sesiones[old(proxSesion)].uuid !in UuidsEnUso(old(sesiones))
        && proxSesion == old(proxSesion) + 1
    {
      if !usuarios[yo].esDocente {
        return Forbidden403;
      }
      if cursoId !in cursos {
        return Uncaught;
      }
      if cursos[cursoId].docente != yo {
        return Forbidden403;
      }
      ghost var cota := Orden.CotaSuperior(UuidsEnUso(sesiones));
      assert cota !in UuidsEnUso(sesiones);
      var uuid: Uuid :| uuid !in UuidsEnUso(sesiones);
      CrearSesionConserva(Estado(), proxSesion, Sesion(cursoId, hoy, uuid));
      sesiones := sesiones[proxSesion := Sesion(cursoId, hoy, uuid)];
      proxSesion := proxSesion + 1;
      r := Redirect;
    }

    /** `registrar_asistencia_view`: the guards run in order (unknown token,
        teacher, not enrolled, already registered) and only then is one
        attendance row inserted, stamped `ahora`. */
    method RegistrarAsistencia(yo: Id, uuid: Uuid, ahora: Fecha) returns (r: Respuesta<()>)
      requires Valid() && yo in usuarios
      modifies this
      ensures Valid()
      ensures unchanged(this`usuarios, this`cursos, this`inscripciones, this`sesiones)
      ensures unchanged(this`proxCurso, this`proxInscripcion, this`proxSesion)
      ensures BuscarPorUuid(sesiones, uuid).None? ==> r == NotFound404
      ensures BuscarPorUuid(sesiones, uuid).Some? && usuarios[yo].esDocente ==> r == Forbidden403
      ensures BuscarPorUuid(sesiones, uuid).Some? && !usuarios[yo].esDocente ==>
        var s := BuscarPorUuid(sesiones, uuid).value;
        && (!Inscrito(inscripciones, yo, sesiones[s].curso) ==> r == Forbidden403)
        && (Inscrito(inscripciones, yo, sesiones[s].curso) && YaAsistio(old(asistencias), s, yo) ==> r == BadRequest400)
        && (Inscrito(inscripciones, yo, sesiones[s].curso) && !YaAsistio(old(asistencias), s, yo) ==>
              && r == Ok(())
              && old(proxAsistencia) !in old(asistencias)
              && asistencias == old(asistencias)[old(proxAsistencia) := Asistencia(s, yo, ahora)]
              && proxAsistencia == old(proxAsistencia) + 1)
      ensures r != Ok(()) ==> unchanged(this)
    {
      var encontrada := BuscarPorUuid(sesiones, uuid);
      if encontrada.None? {
        return NotFound404;
      }
      var s := encontrada.value;
      if usuarios[yo].esDocente {
        return Forbidden403;
      }
      if !Inscrito(inscripciones, yo, sesiones[s].curso) {
        return Forbidden403;
      }
      if YaAsistio(asistencias, s, yo) {
        return BadRequest400;
      }
      RegistrarConserva(Estado(), proxAsistencia, Asistencia(s, yo, ahora));
      asistencias := asistencias[proxAsistencia := Asistencia(s, yo, ahora)];
      proxAsistencia := proxAsistencia + 1;
      r := Ok(());
    }

    /** `ver_asistentes_view`: an unknown session is a 404; only the teacher
        owning the session's course sees its attendance rows, which name
        enrolled students, each at most once. */
    function VerAsistentes(yo: Id, sesionId: Id): (r: Respuesta<set<Id>>)
      reads this
      requires Valid() && yo in usuarios
      ensures r == NotFound404 <==> sesionId !in sesiones
      ensures r.Ok? <==>
        sesionId in sesiones && usuarios[yo].esDocente && cursos[sesiones[sesionId].curso].docente == yo
      ensures sesionId in sesiones && !r.Ok? ==> r == Forbidden403
      ensures r.Ok? ==> forall a :: a in r.cuerpo <==> a in asistencias && asistencias[a].sesion == sesionId
      ensures r.Ok? ==> forall a :: a in r.cuerpo ==>
        Inscrito(inscripciones, asistencias[a].estudiante, sesiones[sesionId].curso)
      ensures r.Ok? ==> forall a, b :: a in r.cuerpo && b in r.cuerpo && a != b ==>
        asistencias[a].estudiante != asistencias[b].estudiante
    {
      if sesionId !in sesiones then NotFound404
      else if !usuarios[yo].esDocente || cursos[sesiones[sesionId].curso].docente != yo then Forbidden403
      else Ok(AsistentesDe(asistencias, sesionId))
    }

    /** `historial_estudiante_view`: each of the requester's own attendance
        rows once, newest session first; every one is for a course the
        requester is enrolled in. */
    function HistorialEstudiante(yo: Id): (r: Respuesta<seq<Id>>)
      reads this
      requires Valid()
      ensures r.Ok?
      ensures multiset(r.cuerpo) == multiset(AsistenciasDe(asistencias, yo))
      ensures Orden.Descendente(r.cuerpo, FechaDeAsistencia(sesiones, asistencias))
      ensures forall k :: 0 <= k < |r.cuerpo| ==>
        && r.cuerpo[k] in asistencias
        && asistencias[r.cuerpo[k]].estudiante == yo
        && Inscrito(inscripciones, yo, sesiones[asistencias[r.cuerpo[k]].sesion].curso)
      ensures yo in usuarios && usuarios[yo].esDocente ==> r.cuerpo == []
    {
      var filas := Orden.OrdenarDesc(Orden.Listado(AsistenciasDe(asistencias, yo)), FechaDeAsistencia(sesiones, asistencias));
      AsistenciasPropias(Estado(), yo, filas);
      assert yo in usuarios && usuarios[yo].esDocente ==> filas == [] by {
        if yo in usuarios && usuarios[yo].esDocente {
          DocenteSinAsistencias(Estado(), yo);
          assert |filas| == |multiset(filas)|;
        }
      }
      Ok(filas)
    }

    /** `historial_docente_view`: non-teachers are redirected; a teacher gets
        one block per own course, each listing that course's sessions newest
        first with their attendance rows. */
    method HistorialDocente(yo: Id) returns (r: Respuesta<seq<FilaCurso>>)
      requires yo in usuarios
      ensures !usuarios[yo].esDocente ==> r == Redirect
      ensures usuarios[yo].esDocente ==> r.Ok?
      ensures r.Ok? ==> multiset(IdsCursos(r.cuerpo)) == multiset(CursosDeDocente(cursos, yo))
      ensures r.Ok? ==> forall k :: 0 <= k < |r.cuerpo| ==> HistorialDeCurso(sesiones, asistencias, r.cuerpo[k])
    {
      if !usuarios[yo].esDocente {
        return Redirect;
      }
      var propios := Orden.Listado(CursosDeDocente(cursos, yo));
      var datos: seq<FilaCurso> := [];
      for i := 0 to |propios|
        invariant IdsCursos(datos) == propios[..i]
        invariant forall k :: 0 <= k < |datos| ==> HistorialDeCurso(sesiones, asistencias, datos[k])
      {
        var filas := FilasDeSesiones(SesionesOrdenadas(sesiones, propios[i]));
        assert HistorialDeCurso(sesiones, asistencias, FilaCurso(propios[i], filas));
        IdsCursosAlFinal(datos, FilaCurso(propios[i], filas));
        assert propios[..i + 1] == propios[..i] + [propios[i]];
        datos := datos + [FilaCurso(propios[i], filas)];
      }
      assert propios[..|propios|] == propios;
      r := Ok(datos);
    }

    /** The inner loop of `historial_docente_view`: one row per session of
        `ses`, in the same order, each with that session's attendance rows. */
    method FilasDeSesiones(ses: seq<Id>) returns (filas: seq<FilaSesion>)
      ensures IdsSesiones(filas) == ses
      ensures forall k :: 0 <= k < |filas| ==> filas[k].asistentes == AsistentesDe(asistencias, filas[k].sesion)
    {
      filas := [];
      for j := 0 to |ses|
        invariant IdsSesiones(filas) == ses[..j]
        invariant forall k :: 0 <= k < |filas| ==> filas[k].asistentes == AsistentesDe(asistencias, filas[k].sesion)
      {
        IdsSesionesAlFinal(filas, FilaSesion(ses[j], AsistentesDe(asistencias, ses[j])));
        assert ses[..j + 1] == ses[..j] + [ses[j]];
        filas := filas + [FilaSesion(ses[j], AsistentesDe(asistencias, ses[j]))];
      }
      assert ses[..|ses|] == ses;
    }

    /** Deleting a session deletes its attendance rows (`on_delete=CASCADE`). */
    method EliminarSesion(s: Id)
      requires Valid()
      modifies this
      ensures Valid()
      ensures Estado() == BorrarSesion(old(Estado()), s)
      ensures unchanged(this`proxCurso, this`proxInscripcion, this`proxSesion, this`proxAsistencia)
    {
      BorrarSesionConserva(Estado(), s);
      var t := BorrarSesion(Estado(), s);
      SubtablasClaves(Estado(), t, proxCurso, proxInscripcion, proxSesion, proxAsistencia);
      usuarios, cursos, inscripciones, sesiones, asistencias :=
        t.usuarios, t.cursos, t.inscripciones, t.sesiones, t.asistencias;
      assert Estado() == t;
    }

    /** Deleting a course deletes its enrollments, its sessions and their
        attendance rows (`on_delete=CASCADE`). */
    method EliminarCurso(c: Id)
      requires Valid()
      modifies this
      ensures Valid()
      ensures Estado() == BorrarCurso(old(Estado()), c)
      ensures unchanged(this`proxCurso, this`proxInscripcion, this`proxSesion, this`proxAsistencia)
    {
      BorrarCursoConserva(Estado(), c);
      var t := BorrarCurso(Estado(), c);
      SubtablasClaves(Estado(), t, proxCurso, proxInscripcion, proxSesion, proxAsistencia);
      usuarios, cursos, inscripciones, sesiones, asistencias :=
        t.usuarios, t.cursos, t.inscripciones, t.sesiones, t.asistencias;
      assert Estado() == t;
    }

    /** Deleting a user deletes the courses they own (with everything hanging
        from those), their enrollments and their attendance rows
        (`on_delete=CASCADE`). */
    method EliminarUsuario(u: Id)
      requires Valid()
      modifies this
      ensures Valid()
      ensures Estado() == BorrarUsuario(old(Estado()), u)
      ensures unchanged(this`proxCurso, this`proxInscripcion, this`proxSesion, this`proxAsistencia)
    {
      BorrarUsuarioConserva(Estado(), u);
      var t := BorrarUsuario(Estado(), u);
      SubtablasClaves(Estado(), t, proxCurso, proxInscripcion, proxSesion, proxAsistencia);
      usuarios, cursos, inscripciones, sesiones, asistencias :=
        t.usuarios, t.cursos, t.inscripciones, t.sesiones, t.asistencias;
      assert Estado() == t;
    }
  }
}
