/** The image registry: the images a collage draws from, each paired with the
    placement profile that bounds how much of it one piece shows. */
module Registry {

  /** A loaded bitmap. The pipeline never looks inside it; it only hands it to
      the mask shader, so it is an opaque handle here. */
  datatype Image = Image(handle: nat)

  /** The range from which the draw-size ratio of a piece cut from an image is
      sampled. Nothing checks that `minRatio <= maxRatio` or that either lies
      in (0, 1]. */
  datatype CollageProfile = CollageProfile(minRatio: real, maxRatio: real)

  /** The registry as one list of entries, read off the two parallel lists the
      collager keeps: entry `i` pairs image `i` with profile `i`. */
  function Entries(images: seq<Image>, profiles: seq<CollageProfile>): (e: seq<(Image, CollageProfile)>)
    requires |images| == |profiles|
    ensures |e| == |images|
    ensures forall i :: 0 <= i < |e| ==> e[i].0 == images[i] && e[i].1 == profiles[i]
  {
    if images == [] then []
    else [(images[0], profiles[0])] + Entries(images[1..], profiles[1..])
  }

  /** Appending one image and one profile appends exactly one entry and
      leaves the earlier entries where they were. */
  lemma EntriesAppend(images: seq<Image>, profiles: seq<CollageProfile>, img: Image, p: CollageProfile)
    requires |images| == |profiles|
    ensures Entries(images + [img], profiles + [p]) == Entries(images, profiles) + [(img, p)]
  {
    var e, e' := Entries(images, profiles), Entries(images + [img], profiles + [p]);
    assert |e'| == |e + [(img, p)]|;
    forall i | 0 <= i < |e'|
      ensures e'[i] == (e + [(img, p)])[i]
    {
      if i < |e| {
        assert (images + [img])[i] == images[i];
        assert (profiles + [p])[i] == profiles[i];
      }
    }
  }
}
