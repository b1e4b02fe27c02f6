/**
 * The add-friend form: two draft text fields and the submit rule that turns
 * them into a new friend with a zero balance.
 */
module FormAddFriend {
  import opened Optional
  import opened Friends

  /** The avatar URL the image field starts with and is reset to. */
  const BaseImage: string := "https://i.pravatar.cc/48"

  /** The new friend's image: the draft URL with "?=" and the id appended. */
  function TaggedImage(image: string, id: Id): string {
    image + "?=" + id
  }

  /**
   * The friend a submission produces from the drafts `name` and `image` and
   * the fresh `id`: none when either draft is empty.
   */
  function NewFriend(name: string, image: string, id: Id): (r: Option<Friend>)
    ensures r.None? <==> name == [] || image == []
    ensures r.Some? ==> r.value.id == id && r.value.name == name && r.value.balance == 0
    ensures r.Some? ==>
      && |r.value.image| == |image| + 2 + |id|
      && r.value.image[..|image|] == image
      && r.value.image[|image|..] == "?=" + id
  {
    if name == [] || image == [] then None
    else Some(Friend(id, name, TaggedImage(image, id), 0))
  }

  /** Friends added from the same image URL under different ids get different image references. */
  lemma DistinctIdsDistinctImages(image: string, id1: Id, id2: Id)
    requires id1 != id2
    ensures TaggedImage(image, id1) != TaggedImage(image, id2)
  {
    assert TaggedImage(image, id1)[|image| + 2..] == id1;
    assert TaggedImage(image, id2)[|image| + 2..] == id2;
  }

  /** The draft state of the add-friend form. */
  class Draft {
    var name: string
    var image: string

    /** A freshly shown form: empty name, the base avatar URL. */
    constructor ()
      ensures name == [] && image == BaseImage
    {
      name := [];
      image := BaseImage;
    }

    /** The user edits the name field. */
    method SetName(s: string)
      modifies this
      ensures name == s && image == old(image)
    {
      name := s;
    }

    /** The user edits the image field. */
    method SetImage(s: string)
      modifies this
      ensures image == s && name == old(name)
    {
      image := s;
    }

    /**
     * Submission with the fresh id `id`. Returns the friend handed to the app,
     * if any; on success both drafts go back to their initial values, and
     * otherwise nothing changes.
     */
    method Submit(id: Id) returns (added: Option<Friend>)
      modifies this
      ensures added == NewFriend(old(name), old(image), id)
      ensures added.None? ==> name == old(name) && image == old(image)
      ensures added.Some? ==> name == [] && image == BaseImage
    {
      if name == [] || image == [] {
        return None;
      }
      added := Some(Friend(id, name, TaggedImage(image, id), 0));
      name := [];
      image := BaseImage;
    }
  }
}
