# Attendance bookkeeping of the PASALISTA classroom app, in Dafny

The application lets teachers create courses and open dated attendance
sessions, each carrying a unique token that is shown as a QR code; students
enroll in courses and register their presence at a session by visiting the
token's link, at most once. This project models the database behind those
views and the views themselves:

- `Modelos` (`modelos.dfy`) — the five tables (users, courses, enrollments,
  sessions, attendance rows) as maps from auto-increment id to row, the
  three uniqueness constraints, the foreign keys, and the rules the views'
  guards keep true (courses belong to teachers, only students enroll, only an
  enrolled student has an attendance row). `Consistente` is the conjunction.
  Inserting each kind of row under the views' guards, and each cascade
  delete, is proved to keep it.
- `Consultas` (`consultas.dfy`) — the ORM queries the views run (`get`,
  `filter`, `exclude`, `exists`, `order_by`) as functions of the tables.
- `Orden` (`orden.dfy`) — listing a finite set of ids, the `order_by('-…')`
  ordering (an insertion sort proved to be a permutation and non-increasing
  by the key), and the existence of a token outside a finite set.
- `Vistas` (`vistas.dfy`) — class `Almacen`, the database as one object whose
  fields are the tables and the four auto-increment counters, with one
  member per view. The write views are methods that check their guards in
  the handler's order and insert one row, keeping `Valid()` and stating the
  whole new state. The two filter views are functions. The teacher history,
  which the handler builds with nested loops, is a read-only method.
  The cascades are methods too.
- `Escenario` (`escenario.dfy`) — one scenario, proved start to finish:
  teacher 1 creates a course, student 2 enrolls, the teacher opens a
  session, the student registers (success) and registers again (400), an
  unenrolled student is refused (403), another teacher is refused the
  attendee list (403) and the owner sees exactly the one row.

A response is a `Respuesta`: `Ok` (a rendered page or plain success, with
the data the page shows), `Redirect`, `Forbidden403`, `NotFound404`,
`BadRequest400`, or `Uncaught` for an exception the handler lets escape.
The requester is an already authenticated user id `yo`. The clock is a
parameter (`hoy`, `ahora`) that the server supplies, never the request, in
line with `auto_now_add`.

The handlers let these failures escape uncaught:
- `cursos_disponibles_view` inserts a POSTed enrollment without checking
  for an earlier one (views.py:83). The `unique_together` constraint
  (models.py:23-24) rejects a repeated pair, and nothing catches that
  `IntegrityError`. The model answers `Uncaught` and leaves every table as
  it was.
- A missing or unknown `curso_id` in `cursos_disponibles_view` (views.py:82)
  and an unknown course in `crear_sesion_view` (views.py:102) raise
  `DoesNotExist`, which is not caught either (`Uncaught`, nothing changes).

Two handlers answer 404 instead: `ver_asistentes_view` for an unknown
session id (views.py:153) and `registrar_asistencia_view` for a token no
session holds (views.py:133-136). A repeated attendance registration is
refused by the explicit check before the insert (views.py:144-145), with 400.

## Model

| member | source | states |
|---|---|---|
| Vistas.Almacen.constructor | asistenciapp/usuarios/models.py:5-6 | a fresh database holds only the given users, every other table is empty, and every auto-increment counter starts at 1 |
| Vistas.Almacen.CrearCurso | asistenciapp/usuarios/views.py:55-70 | non-teachers get 403; a teacher's GET or invalid form re-renders (`Ok`) and changes nothing; a redirect happens exactly for a teacher's POST with a valid form, and then exactly one course is added, under a new id, owned by the requester; no other table changes and consistency is kept |
| Vistas.Almacen.CursosDisponibles | asistenciapp/usuarios/views.py:73-86 | teachers get 403; a GET lists exactly the courses with no enrollment of the requester; a POST for an existing course the requester is not enrolled in adds exactly that (requester, course) enrollment and redirects; a missing or unknown id, or a repeated enrollment, is `Uncaught` and changes nothing |
| Vistas.Almacen.CrearSesion | asistenciapp/usuarios/views.py:96-108 | non-teachers get 403, an unknown course is `Uncaught`, a teacher who does not own the course gets 403, and none of these change anything; the owner gets exactly one new session of that course, dated today, whose token no existing session holds, and existing sessions keep their tokens |
| Vistas.Almacen.RegistrarAsistencia | asistenciapp/usuarios/views.py:130-148 | the guards run in order: an unknown token gives 404, a teacher gets 403, a student not enrolled in the session's course gets 403 (checked before the duplicate check), a repeated registration gets 400, and none of these change anything; otherwise exactly the row (session, requester, now) is added and users, courses, enrollments and sessions stay as they were |
| Vistas.Almacen.VerAsistentes | asistenciapp/usuarios/views.py:150-163 | 404 exactly when the session does not exist; the rows are shown exactly to the teacher owning the session's course, everyone else gets 403; the rows shown are exactly that session's attendance rows, each for an enrolled student, no student twice |
| Vistas.Almacen.HistorialEstudiante | asistenciapp/usuarios/views.py:165-171 | the history holds each of the requester's own attendance rows exactly once, ordered by session date, newest first; each row is for a course the requester is enrolled in; a teacher's history is empty |
| Vistas.Almacen.HistorialDocente | asistenciapp/usuarios/views.py:173-200 | non-teachers are redirected; a teacher gets one block per own course, each course exactly once; each block lists that course's sessions exactly once, newest first, each with exactly its attendance rows |
| Vistas.Almacen.FilasDeSesiones | asistenciapp/usuarios/views.py:185-191 | the inner loop yields one row per session, in the given order, each with exactly that session's attendance rows |
| Vistas.Almacen.EliminarSesion | asistenciapp/usuarios/models.py:40 | deleting a session removes it and its attendance rows, and the tables stay consistent |
| Vistas.Almacen.EliminarCurso | asistenciapp/usuarios/models.py:20-40 | deleting a course removes it, its enrollments, its sessions and their attendance rows, and the tables stay consistent |
| Vistas.Almacen.EliminarUsuario | asistenciapp/usuarios/models.py:14-41 | deleting a user removes the courses they own (with all that hangs from them), their enrollments and their attendance rows, and the tables stay consistent |
| Modelos.BorrarSesion | asistenciapp/usuarios/models.py:40 | after the cascade the session and exactly its attendance rows are gone; users, courses, enrollments, every other session and every other attendance row stay unchanged |
| Modelos.BorrarCurso | asistenciapp/usuarios/models.py:20-40 | after the cascade the course, exactly its enrollments and sessions, and those sessions' attendance rows are gone; users, every other course, and the enrollments, sessions and attendance rows of the kept courses stay unchanged |
| Modelos.BorrarUsuario | asistenciapp/usuarios/models.py:14-41 | after the cascade the user, the courses they own, their enrollments and their attendance rows are gone, along with everything hanging from the removed courses and sessions; every other user and every row that depends on none of these stays unchanged |
| Modelos.BorrarSesionConserva | asistenciapp/usuarios/models.py:40 | deleting a session keeps every constraint and rule, and leaves only rows that were there, unchanged |
| Modelos.BorrarCursoConserva | asistenciapp/usuarios/models.py:20-40 | deleting a course keeps every constraint and rule, and leaves only rows that were there, unchanged |
| Modelos.BorrarUsuarioConserva | asistenciapp/usuarios/models.py:14-41 | deleting a user keeps every constraint and rule, and leaves only rows that were there, unchanged |
| Modelos.SubtablasUnicas | asistenciapp/usuarios/models.py:23-45 | removing rows never breaks a uniqueness constraint |
| Modelos.SubtablasReglas | asistenciapp/usuarios/models.py:14-41 | removing rows without leaving a dangling key, and keeping the enrollments the kept attendance rows rely on, keeps the views' rules |
| Modelos.InscribirConserva | asistenciapp/usuarios/models.py:23-24 | inserting the enrollment of a student in an existing course they are not enrolled in keeps the tables consistent; in particular no (student, course) pair appears twice |
| Modelos.InscribirUnicas | asistenciapp/usuarios/models.py:23-24 | a new enrollment for a pair not yet enrolled keeps enrollments unique per (student, course) |
| Modelos.CrearCursoConserva | asistenciapp/usuarios/models.py:11-14 | inserting a course owned by a teacher, under a name of 1 to 100 characters, keeps the tables consistent, so every course has one owning teacher |
| Modelos.CrearSesionConserva | asistenciapp/usuarios/models.py:31-34 | inserting a session of an existing course under a token no session holds keeps the tables consistent; in particular tokens stay unique |
| Modelos.RegistrarConserva | asistenciapp/usuarios/models.py:39-45 | inserting the first row of an enrolled student for an existing session keeps the tables consistent; in particular no (session, student) pair appears twice |
| Modelos.SubtablasClaves | asistenciapp/usuarios/models.py:11-39 | deleting rows never leaves a key at or above its table's next auto-increment id |
| Modelos.UsuarioNuevoEsEstudiante | asistenciapp/usuarios/models.py:6 | a user created without the flag is a student |
| Consultas.BuscarPorUuid | asistenciapp/usuarios/views.py:133-136 | the lookup finds a session exactly when some session holds the token, and then it is the session holding it |
| Consultas.InscribirRetiraCurso | asistenciapp/usuarios/views.py:78-83 | enrolling in a course removes that course, and only it, from the courses offered to the requester, and changes no other user's offer |
| Consultas.SesionesOrdenadas | asistenciapp/usuarios/views.py:183 | a course's sessions, each exactly once, newest first |
| Consultas.AsistenciasPropias | asistenciapp/usuarios/views.py:168 | any listing of a user's attendance rows names only that user's rows, each for a course the user is enrolled in |
| Consultas.DocenteSinAsistencias | asistenciapp/usuarios/views.py:138-139 | in consistent tables a teacher holds no attendance row |
| Orden.OrdenarDesc | asistenciapp/usuarios/views.py:168 | `order_by('-key')`: the result is a permutation of the input, ordered by the key, largest first |
| Orden.Insertar | asistenciapp/usuarios/views.py:183 | inserting into a key-ordered sequence keeps it ordered and adds exactly the new element |
| Orden.Listado | asistenciapp/usuarios/views.py:179 | a queryset over a finite set of rows lists each row exactly once |
| Orden.CotaSuperior | asistenciapp/usuarios/models.py:34 | every finite set of tokens has one outside it, so a fresh token always exists |
| Escenario.Tarde | asistenciapp/usuarios/views.py:130-163 | in the scenario above, the first registration succeeds, the second gets 400, the unenrolled student gets 403, the other teacher gets 403 and the owner sees exactly the one row |
| Escenario.SesionUnica | asistenciapp/usuarios/views.py:134 | with a single session, looking up its token finds it |

## Left out

- Registration, login, logout and `@login_required` (`registro_view`, `login_view`, `logout_view`, views.py:14-38): Django's authentication system does this work. The requester is an authenticated user id, and the users are given to the constructor. Usernames, e-mail and passwords are not modelled.
- `inicio_view` and `mis_cursos_view` (views.py:41-52, 88-94): they only list data and are outside the attendance bookkeeping.
- `ver_qr_view` (views.py:110-128): it calls the QR library, encodes a PNG as base64 and uses a hard-coded address. The view checks no ownership, so any logged-in user can see any session's token.
- `camaraqr_view` and `urls.py`: they only render a template or route requests.
- Template rendering, response texts and redirect targets are reduced to the tag of a `Respuesta` and the data the page would show.
- Vistas.Almacen.CrearCurso: the form check is modelled as a non-empty `nombre` of at most 100 characters (`max_length`, models.py:12). Django's whitespace stripping and the other form-field validation are not modelled.
- Concurrency: each request runs alone. Two concurrent registrations can both pass the check at views.py:144. The database constraint (models.py:44-45) then rejects the second insert as an uncaught `IntegrityError`. This race is not modelled.
- `uuid4` randomness: a token is a natural number chosen outside the tokens in use. The model does not capture collision probability or the UUID format.
- Wall-clock values of `auto_now_add`: dates and timestamps are natural numbers the server passes in. A date and a timestamp are not told apart.
- Vistas.Almacen.HistorialDocente: courses are listed in ascending id order. The queryset at views.py:179 has no `order_by`, so the database may return another order. The contract states only that each own course appears exactly once.
- Orden.OrdenarDesc: the order among rows with equal dates is not specified, just as `order_by('-fecha')` leaves it open.
- `__str__` formatters (models.py:8-9, 16-17, 26-27, 36-37, 47-48): display only.
- A session's token cannot be changed (`editable=False`, models.py:34). The model has no operation that edits a session, and `CrearSesion` leaves existing sessions unchanged.
