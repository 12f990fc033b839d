/** The parts of the site's HTML that the scraper reads, as plain data. */
module Markup {
  import opened Common

  /** The first <a> inside a table row: its text and its href attribute, if any. */
  datatype Anchor = Anchor(text: string, href: Option<string>)

  /** A child of the song-list container: a bare text node, or a table row
      with its number of HTML attributes, the `.string` of each of its
      children (None when a child has no single string), and its first anchor. */
  datatype Line =
    | TextNode(text: string)
    | Row(attributeCount: nat, cells: seq<Option<string>>, anchor: Option<Anchor>)

  /** An album page:
      - heading: the text of the h2 inside #pageContent, None when either is missing;
      - header: the strings inside #songlist_header, in document order, None when it is missing;
      - songList: the children of #songlist, None when it is missing. */
  datatype AlbumPage = AlbumPage(
    heading: Option<string>,
    header: Option<seq<string>>,
    songList: Option<seq<Line>>)
}
