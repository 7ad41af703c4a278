/** `validateProjectAccess`: find the caller's project and attach it to the request. */
module ProjectMiddleware {
  import opened Wrappers
  import opened Js
  import opened Models
  import opened Http
  import opened Query

  const ProjectIdRequired: string := "Project ID is required"
  const ProjectNotFound: string := "Project not found"
  const AccessCheckFailed: string := "Failed to validate project access"

  /** `req.headers['x-project-id'] || req.params.project_id`: the header wins when it is non-empty. */
  function ProjectIdOf(header: Option<string>, param: Option<string>): (r: Option<string>)
    ensures header.Some? && header.value != "" ==> r == header
    ensures (header.None? || header.value == "") ==> r == (if param.Some? && param.value != "" then param else None)
    ensures r.Some? ==> r.value != ""
  {
    if header.Some? && header.value != "" then header
    else if param.Some? && param.value != "" then param
    else None
  }

  predicate OwnedProject(p: Project, id: Id, company: Id) {
    p.id == id && p.company == company
  }

  /** `Project.findOne({ _id, company })`. */
  function FindOwnedProject(ps: seq<Project>, id: Id, company: Id): (r: Option<nat>)
    ensures r.Some? ==> r.value < |ps| && OwnedProject(ps[r.value], id, company)
    ensures r.None? <==> forall i :: 0 <= i < |ps| ==> !OwnedProject(ps[i], id, company)
  {
    FindFirst(ps, p => OwnedProject(p, id, company))
  }

  /** The project the request may act on, or the rejection. */
  function ResolveProjectAccess(ps: seq<Project>, company: Id, header: Option<string>, param: Option<string>): (r: Result<Project, Verdict>)
    ensures r.Failure? ==> r.error in {Reject(400, ProjectIdRequired), Reject(404, ProjectNotFound), Reject(500, AccessCheckFailed)}
    ensures r == Failure(Reject(400, ProjectIdRequired)) <==> ProjectIdOf(header, param).None?
    ensures r.Success? ==> r.value in ps && r.value.company == company
    ensures r.Success? ==> ProjectIdOf(header, param).Some? && ParseId(Text(ProjectIdOf(header, param).value)) == Some(r.value.id)
    ensures ProjectIdOf(header, param).Some? && ParseId(Text(ProjectIdOf(header, param).value)).Some? ==>
      (r == Failure(Reject(404, ProjectNotFound)) <==>
         forall i :: 0 <= i < |ps| ==> !OwnedProject(ps[i], ParseId(Text(ProjectIdOf(header, param).value)).value, company))
  {
    match ProjectIdOf(header, param)
    case None => Failure(Reject(400, ProjectIdRequired))
    case Some(text) =>
      match ParseId(Text(text))
      case None => Failure(Reject(500, AccessCheckFailed))
      case Some(id) =>
        match FindOwnedProject(ps, id, company)
        case None => Failure(Reject(404, ProjectNotFound))
        case Some(k) => Success(ps[k])
  }

  /** A project owned by another company is reported exactly like one that does not exist. */
  lemma ForeignProjectNotFound(ps: seq<Project>, company: Id, text: string, id: Id)
    requires text != "" && ParseId(Text(text)) == Some(id)
    requires forall i :: 0 <= i < |ps| ==> ps[i].id == id ==> ps[i].company != company
    ensures ResolveProjectAccess(ps, company, Some(text), None) == Failure(Reject(404, ProjectNotFound))
    ensures ResolveProjectAccess(ps, company, None, Some(text)) == Failure(Reject(404, ProjectNotFound))
  {
  }

  /** The part of `req` the middleware writes. */
  class Request {
    var project: Option<Project>

    constructor ()
      ensures project == None
    {
      project := None;
    }
  }

  /** Runs the middleware: on success `req.project` is set and `next()` is called. */
  method ValidateProjectAccess(req: Request, ps: seq<Project>, company: Id, header: Option<string>, param: Option<string>)
    returns (v: Verdict)
    modifies req
    ensures var r := ResolveProjectAccess(ps, company, header, param);
            (r.Success? ==> v == Next && req.project == Some(r.value))
            && (r.Failure? ==> v == r.error && req.project == old(req.project))
  {
    var r := ResolveProjectAccess(ps, company, header, param);
    if r.Success? {
      req.project := Some(r.value);
      v := Next;
    } else {
      v := r.error;
    }
  }
}
