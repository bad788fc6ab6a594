/** The attachment calls of the media service, each run without interruption, with
    every remote step allowed to fail. */
module MediaService {
  import opened Attachments
  import opened Options
  import opened StorageKeys

  datatype Outcome = Ok | InvalidInput | FileTooLarge | PostNotFound | AttachmentNotFound | Forbidden | StepFailed

  class Media {
    var objects: set<string>
    var rows: map<Id, Row>
    var posts: set<Id>

    constructor (posts: set<Id>)
      ensures objects == {} && rows == map[] && this.posts == posts
    {
      objects, rows, this.posts := {}, map[], posts;
    }

    /** Every row has its object. */
    ghost predicate Backed()
      reads this
    {
      forall a | a in rows :: rows[a].key in objects
    }

    /** A failed upload costs at most an object without a row, never a row without
        an object; when it answers Ok both are there. */
    method UploadAttachment(id: Id, uuid: Uuid, owner: Id, post: Option<Id>, ext: string, size: int,
                            putFails: bool, insertFails: bool)
      returns (r: Outcome)
      requires id !in rows
      modifies this`objects, this`rows
      ensures r == Ok <==>
        0 < size <= 20 * 1024 * 1024 && (post.None? || post.value in posts) && !putFails && !insertFails
      ensures r == InvalidInput <==> size <= 0
      ensures r == FileTooLarge <==> size > 20 * 1024 * 1024
      ensures r == PostNotFound <==> 0 < size <= 20 * 1024 * 1024 && post.Some? && post.value !in posts
      ensures r == Ok ==> rows == old(rows)[id := Row(owner, post, AttachmentKey(uuid, ext))]
      ensures r != Ok ==> rows == old(rows)
      ensures objects == if r == Ok || (r == StepFailed && !putFails)
        then old(objects) + {AttachmentKey(uuid, ext)} else old(objects)
      ensures old(Backed()) ==> Backed()
    {
      if size <= 0 {
        return InvalidInput;
      }
      if size > MAX_ATTACHMENT_SIZE {
        return FileTooLarge;
      }
      if post.Some? && post.value !in posts {
        return PostNotFound;
      }
      if putFails {
        return StepFailed;
      }
      var key := AttachmentKey(uuid, ext);
      objects := objects + {key};
      if insertFails {
        return StepFailed;
      }
      rows := rows[id := Row(owner, post, key)];
      r := Ok;
    }

    /** Only the owner or a moderator gets past the check.  Ok means row and object
        are gone; a failure in between leaves the row, and the call can be repeated. */
    method DeleteAttachment(a: Id, caller: Id, moderator: bool, removeFails: bool, deleteFails: bool)
      returns (r: Outcome)
      modifies this`objects, this`rows
      ensures r == AttachmentNotFound <==> a !in old(rows)
      ensures r == Forbidden <==> a in old(rows) && old(rows)[a].owner != caller && !moderator
      ensures r == Ok <==>
        a in old(rows) && (old(rows)[a].owner == caller || moderator) && !removeFails && !deleteFails
      ensures r == Ok ==> rows == old(rows) - {a} && objects == old(objects) - {old(rows)[a].key}
      ensures r != Ok ==> rows == old(rows)
      ensures r == StepFailed ==> objects == if removeFails then old(objects) else old(objects) - {old(rows)[a].key}
      ensures r == AttachmentNotFound || r == Forbidden ==> objects == old(objects)
      ensures old(Backed()) && r == Ok && (forall b | b in old(rows) && b != a :: old(rows)[b].key != old(rows)[a].key)
        ==> Backed()
    {
      if a !in rows {
        return AttachmentNotFound;
      }
      var row := rows[a];
      if row.owner != caller && !moderator {
        return Forbidden;
      }
      if removeFails {
        return StepFailed;
      }
      objects := objects - {row.key};
      if deleteFails {
        return StepFailed;
      }
      rows := rows - {a};
      r := Ok;
    }
  }
}
