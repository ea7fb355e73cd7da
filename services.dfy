/** The design service: create, read, update, delete and list designs over an
    injected repository, plus the validate flow of the designs endpoint, which
    runs the design-rule check and stores its result on the design. */
module Services {
  import opened Schema
  import opened Repository
  import Drc

  /** A value, or the message of the error the source raises instead. */
  datatype Result<T> = Ok(value: T) | Err(error: string)

  /** The design with its issue list replaced wholesale by a fresh check. */
  function Validated(d: Design): (r: Design)
    ensures r.id == d.id && r.name == d.name && r.board == d.board
    ensures r.createdAt == d.createdAt && r.updatedAt == d.updatedAt
    ensures r.issues == Drc.DrcReport(d.board)
  {
    d.(issues := Drc.DrcReport(d.board))
  }

  /** Validating an already validated design changes nothing: the check reads
      only the board, and the board is kept. */
  lemma ValidatedIdempotent(d: Design)
    ensures Validated(Validated(d)) == Validated(d)
  {
  }

  class DesignService {
    const repo: DesignRepository

    constructor(repo: DesignRepository)
      ensures this.repo == repo
    {
      this.repo := repo;
    }

    method CreateDesign(design: Design) returns (r: Design)
      requires repo.Valid()
      modifies repo
      ensures repo.Valid()
      ensures r == design
      ensures repo.designs == old(repo.designs)[design.id := design]
      ensures repo.order == if design.id in old(repo.designs) then old(repo.order) else old(repo.order) + [design.id]
    {
      repo.Save(design);
      r := design;
    }

    /** The stored design, or the "Design not found" error for an unknown id. */
    function GetDesign(id: string): (r: Result<Design>)
      reads repo
      ensures r.Err? <==> id !in repo.designs
      ensures r.Err? ==> r.error == "Design not found"
      ensures r.Ok? ==> r.value == repo.designs[id]
      ensures repo.Valid() && r.Ok? ==> r.value.id == id
    {
      match repo.Get(id)
      case None => Err("Design not found")
      case Some(design) => Ok(design)
    }

    method UpdateDesign(design: Design) returns (r: Design)
      requires repo.Valid()
      modifies repo
      ensures repo.Valid()
      ensures r == design
      ensures repo.designs == old(repo.designs)[design.id := design]
      ensures repo.order == if design.id in old(repo.designs) then old(repo.order) else old(repo.order) + [design.id]
    {
      repo.Save(design);
      r := design;
    }

    method DeleteDesign(id: string)
      requires repo.Valid()
      modifies repo
      ensures repo.Valid()
      ensures repo.designs == old(repo.designs) - {id}
      ensures repo.order == Without(old(repo.order), id)
    {
      repo.Delete(id);
    }

    function ListDesigns(): (r: seq<Design>)
      requires repo.Valid()
      reads repo
      ensures r == repo.ListAll()
    {
      repo.ListAll()
    }

    /** The validate endpoint: look the design up (an unknown id is an
        error and changes nothing), run the check, replace the design's issues
        with its result and store the design again. */
    method ValidateDesign(id: string) returns (r: Result<seq<Issue>>)
      requires repo.Valid()
      modifies repo
      ensures repo.Valid()
      ensures id !in old(repo.designs) ==> r == Err("Design not found") && unchanged(repo)
      ensures id in old(repo.designs) ==>
        && r == Ok(Drc.DrcReport(old(repo.designs[id]).board))
        && repo.designs == old(repo.designs)[id := Validated(old(repo.designs[id]))]
        && repo.order == old(repo.order)
    {
      var found := GetDesign(id);
      match found
      case Err(message) =>
        r := Err(message);
      case Ok(design) =>
        var issues := Drc.CheckDesign(design);
        var updated := design.(issues := issues);
        var _ := UpdateDesign(updated);
        r := Ok(issues);
    }
  }
}
