/** The attachment entity: a stored file (name and path) linked to the entity it documents. */
module Attachments {
  import opened Common

  /** The kinds of entity an attachment can belong to (the members the attachment endpoints
      switch on). */
  datatype EntityType = DamagedDevice | Lecture | DamagedPassport

  /** The observable fields of an attachment. */
  datatype AttachmentState = AttachmentState(
    id: Guid,
    fileName: string,
    filePath: string,
    entityType: EntityType,
    entityId: Guid)

  /** What `Update` makes of an attachment: the new file name and path, every other field kept. */
  function Updated(a: AttachmentState, fileName: string, filePath: string): (r: AttachmentState)
    ensures r.fileName == fileName && r.filePath == filePath
    ensures r.id == a.id && r.entityType == a.entityType && r.entityId == a.entityId
  {
    a.(fileName := fileName, filePath := filePath)
  }

  /** Updating twice with the same name and path is the same as updating once. */
  lemma UpdateIdempotent(a: AttachmentState, fileName: string, filePath: string)
    ensures Updated(Updated(a, fileName, filePath), fileName, filePath) == Updated(a, fileName, filePath)
  {
  }

  /** Of two successive updates, the last one wins. */
  lemma UpdateLastWins(a: AttachmentState, n1: string, p1: string, n2: string, p2: string)
    ensures Updated(Updated(a, n1, p1), n2, p2) == Updated(a, n2, p2)
  {
  }

  class AttachmentCU {
    /** Publicly settable identifier; `Guid.Empty` until assigned. */
    var Id: Guid
    var FileName: string
    var FilePath: string
    /** Written only by the constructor (private setter), hence fixed for the object's life. */
    const EntityType: EntityType
    /** Written only by the constructor (private setter), hence fixed for the object's life. */
    const EntityId: Guid

    function State(): AttachmentState
      reads this
    {
      AttachmentState(Id, FileName, FilePath, EntityType, EntityId)
    }

    /** Stores the four arguments exactly as given. */
    constructor (fileName: string, filePath: string, entityType: EntityType, entityId: Guid)
      ensures State() == AttachmentState(EmptyGuid, fileName, filePath, entityType, entityId)
    {
      Id := EmptyGuid;
      FileName := fileName;
      FilePath := filePath;
      EntityType := entityType;
      EntityId := entityId;
    }

    /** Rewrites the file name and path and nothing else. */
    method Update(fileName: string, filePath: string)
      modifies this`FileName, this`FilePath
      ensures State() == Updated(old(State()), fileName, filePath)
      ensures FileName == fileName && FilePath == filePath
      ensures Id == old(Id)
    {
      FileName := fileName;
      FilePath := filePath;
    }
  }

  /** Two successive updates leave the second name and path and the original identity. */
  method UpdateTwice(a: AttachmentCU, n1: string, p1: string, n2: string, p2: string)
    modifies a
    ensures a.State() == Updated(old(a.State()), n2, p2)
  {
    a.Update(n1, p1);
    a.Update(n2, p2);
    UpdateLastWins(old(a.State()), n1, p1, n2, p2);
  }
}
