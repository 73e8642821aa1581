/** The photo album (`data/album.ts`): eight photos in four categories and the category
    filter. */
module Album {
  import opened Wrappers
  import opened Seqs

  datatype PhotoCategory = Achievement | Event | Milestone | Personal

  function CategoryName(c: PhotoCategory): string
  {
    match c
    case Achievement => "achievement"
    case Event => "event"
    case Milestone => "milestone"
    case Personal => "personal"
  }

  datatype AlbumPhoto = AlbumPhoto(id: string, url: string, alt: string, caption: Option<string>,
                                   category: PhotoCategory)

  const AlbumPhotos: seq<AlbumPhoto> := [
    AlbumPhoto("hackathon-win", "https://images.unsplash.com/photo-1540575467063-178a50c2df87?w=800&q=80",
               "Hackathon winning moment", Some("First place at the 2024 Hackathon"), Achievement),
    AlbumPhoto("conference-talk", "https://images.unsplash.com/photo-1475721027785-f74eccf877e2?w=800&q=80",
               "Speaking at a tech conference", Some("Sharing thoughts on modern architecture"), Event),
    AlbumPhoto("team-celebration", "https://images.unsplash.com/photo-1522071820081-009f0129c71c?w=800&q=80",
               "Team celebration after product launch", Some("Celebrating a successful launch"), Milestone),
    AlbumPhoto("workspace", "https://images.unsplash.com/photo-1498050108023-c5249f4df085?w=800&q=80",
               "My development workspace", Some("Where the magic happens"), Personal),
    AlbumPhoto("graduation", "https://images.unsplash.com/photo-1523050854058-8df90110c9f1?w=800&q=80",
               "Graduation ceremony", Some("Graduating with honors"), Milestone),
    AlbumPhoto("workshop-leading", "https://images.unsplash.com/photo-1531482615713-2afd69097998?w=800&q=80",
               "Leading a technical workshop", Some("Teaching React to beginners"), Event),
    AlbumPhoto("hiking-adventure", "https://images.unsplash.com/photo-1551632811-561732d1e306?w=800&q=80",
               "Weekend hiking adventure", Some("Finding balance outside the screen"), Personal),
    AlbumPhoto("award-ceremony", "https://images.unsplash.com/photo-1607746882042-944635dfe10e?w=800&q=80",
               "Receiving an award", Some("Recognition for open source contributions"), Achievement)
  ]

  /** `getPhotosByCategory`, over a given album. */
  function GetPhotosByCategory(ps: seq<AlbumPhoto>, category: string): (r: seq<AlbumPhoto>)
    ensures category == "all" ==> r == ps
    ensures category != "all" ==> Selects(r, ps, (p: AlbumPhoto) => CategoryName(p.category) == category)
  {
    if category == "all" then ps
    else
      FilterSelects(ps, (p: AlbumPhoto) => CategoryName(p.category) == category);
      Filter(ps, (p: AlbumPhoto) => CategoryName(p.category) == category)
  }

  /** A string that names no category (and is not "all") selects nothing, whatever the
      album holds. */
  lemma UnknownCategoryIsEmpty(ps: seq<AlbumPhoto>, category: string)
    requires category != "all"
    requires forall c: PhotoCategory :: CategoryName(c) != category
    ensures GetPhotosByCategory(ps, category) == []
  {
    FilterNone(ps, (p: AlbumPhoto) => CategoryName(p.category) == category);
  }

  /** Photo ids are distinct. */
  lemma PhotoIdsDistinct()
    ensures forall i, j :: 0 <= i < j < |AlbumPhotos| ==> AlbumPhotos[i].id != AlbumPhotos[j].id
  {
  }
}
