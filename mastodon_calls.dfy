/**
 * The Mastodon client as seen from main.py: a trace of the `media_post` and
 * `status_post` requests made through it, and `post_to_mastodon`, the job
 * function that scheduled posts run.
 *
 * Paths are written relative to the application's static folder
 * ("uploads/cat.png"); the file system is the set of such paths that exist.
 */
module MastodonCalls {
  import opened Wrappers

  /** One request made to the server. */
  datatype Call =
    | MediaPost(path: string)
    | StatusPost(status: string, mediaIds: Option<seq<string>>)

  /**
   * How the server answers the requests of one publication: the id of the
   * uploaded media (None when `media_post` raises) and whether `status_post`
   * succeeds (false when it raises).
   */
  datatype Reply = Reply(mediaId: Option<string>, statusSucceeds: bool)

  class Client {
    var calls: seq<Call>

    constructor ()
      ensures calls == []
    {
      calls := [];
    }

    /** Uploads a file; `answer` is the id the server gives, None when the call raises. */
    method MediaPost(path: string, answer: Option<string>) returns (mediaId: Option<string>)
      modifies this
      ensures calls == old(calls) + [Call.MediaPost(path)]
      ensures mediaId == answer
    {
      calls := calls + [Call.MediaPost(path)];
      mediaId := answer;
    }

    /** Publishes a status; `succeeds` is false when the call raises. */
    method StatusPost(status: string, mediaIds: Option<seq<string>>, succeeds: bool) returns (ok: bool)
      modifies this
      ensures calls == old(calls) + [Call.StatusPost(status, mediaIds)]
      ensures ok == succeeds
    {
      calls := calls + [Call.StatusPost(status, mediaIds)];
      ok := succeeds;
    }
  }

  /** Python truthiness of an optional string: present and non-empty. */
  predicate Truthy(s: Option<string>) {
    s.Some? && s.value != ""
  }

  /** `[media_id] if media_id else None`. */
  function MediaIds(mediaId: Option<string>): (ids: Option<seq<string>>)
    ensures ids.Some? <==> Truthy(mediaId)
    ensures ids.Some? ==> ids.value == [mediaId.value]
  {
    if Truthy(mediaId) then Some([mediaId.value]) else None
  }

  /** post_to_mastodon uploads the image exactly when its path is truthy and the file exists. */
  predicate Uploads(imagePath: Option<string>, files: set<string>) {
    Truthy(imagePath) && imagePath.value in files
  }

  /** The requests post_to_mastodon makes for one job. */
  function PostCalls(content: string, imagePath: Option<string>, files: set<string>, reply: Reply): (calls: seq<Call>)
    // media_post is called, and called first, exactly when the image is there
    ensures (|calls| > 0 && calls[0].MediaPost?) <==> Uploads(imagePath, files)
    ensures Uploads(imagePath, files) ==> calls[0] == MediaPost(imagePath.value)
    // status_post is the last call unless the upload raised
    ensures |calls| > 0 && (calls[|calls| - 1].StatusPost? <==> !(Uploads(imagePath, files) && reply.mediaId.None?))
    // every status carries the content it was given
    ensures forall i :: 0 <= i < |calls| && calls[i].StatusPost? ==> calls[i].status == content
    // a missing or absent image still gives a text-only status
    ensures !Uploads(imagePath, files) ==> calls == [StatusPost(content, None)]
    ensures Uploads(imagePath, files) && reply.mediaId.Some? ==>
      calls == [MediaPost(imagePath.value), StatusPost(content, MediaIds(reply.mediaId))]
  {
    if Uploads(imagePath, files) then
      [MediaPost(imagePath.value)] + (if reply.mediaId.None? then [] else [StatusPost(content, MediaIds(reply.mediaId))])
    else
      [StatusPost(content, None)]
  }

  /**
   * Whether post_to_mastodon logs an error: the image file is missing, or
   * one of the two requests raises (the exception is caught there).
   */
  predicate LogsError(imagePath: Option<string>, files: set<string>, reply: Reply): (logged: bool)
    // no error means the status went through and any image was uploaded first
    ensures !logged ==> reply.statusSucceeds
    ensures !logged && Truthy(imagePath) ==> Uploads(imagePath, files) && reply.mediaId.Some?
  {
    || (Truthy(imagePath) && imagePath.value !in files)
    || (Uploads(imagePath, files) && reply.mediaId.None?)
    || (!(Uploads(imagePath, files) && reply.mediaId.None?) && !reply.statusSucceeds)
  }

  /**
   * post_to_mastodon: upload the image when there is one, then post the
   * status with the media id; every exception is caught and logged, so the
   * method has no error exit.
   */
  method PostToMastodon(client: Client, content: string, imagePath: Option<string>, files: set<string>, reply: Reply)
    returns (errorLogged: bool)
    modifies client
    ensures client.calls == old(client.calls) + PostCalls(content, imagePath, files, reply)
    ensures errorLogged == LogsError(imagePath, files, reply)
  {
    var mediaId: Option<string> := None;
    errorLogged := false;
    if Truthy(imagePath) {
      if imagePath.value in files {
        var answer := client.MediaPost(imagePath.value, reply.mediaId);
        if answer.None? {
          // media_post raised: the handler logs it and status_post is skipped
          errorLogged := true;
          return;
        }
        mediaId := answer;
      } else {
        errorLogged := true;
      }
    }
    var ok := client.StatusPost(content, MediaIds(mediaId), reply.statusSucceeds);
    if !ok {
      errorLogged := true;
    }
  }
}
