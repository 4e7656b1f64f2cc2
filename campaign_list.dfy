/**
 * The campaign list (components/campaign-list.tsx): loading campaigns and a
 * campaign's generated posts, the results dialog, and the names of the
 * files it offers for download.
 */
module CampaignList {
  import opened Wrappers
  import opened Api

  datatype Campaign = Campaign(id: string, name: string, brandName: string, toneId: string, status: string, createdAt: string)

  datatype GeneratedPost = GeneratedPost(
    id: string,
    title: string,
    generatedCaption: string,
    generatedImageUrl: string,
    status: string,
    createdAt: string)

  // ----- file names -----

  /** What `[a-z0-9]` with the `i` flag matches: an ASCII letter of either case or an ASCII digit. */
  predicate IsAsciiAlnum(c: char) {
    ('a' <= c <= 'z') || ('A' <= c <= 'Z') || ('0' <= c <= '9')
  }

  /** The characters a sanitised stem is made of. */
  predicate IsStemChar(c: char) {
    ('a' <= c <= 'z') || ('0' <= c <= '9') || c == '_'
  }

  /** `s.replace(/[^a-z0-9]/gi, '_')`: every other character becomes `_`. */
  function ReplaceNonAlnum(s: string): (r: string)
    ensures |r| == |s|
    ensures forall i :: 0 <= i < |s| ==> r[i] == if IsAsciiAlnum(s[i]) then s[i] else '_'
    decreases |s|
  {
    if s == [] then []
    else [if IsAsciiAlnum(s[0]) then s[0] else '_'] + ReplaceNonAlnum(s[1..])
  }

  function LowerChar(c: char): char {
    if 'A' <= c <= 'Z' then (c as int - 'A' as int + 'a' as int) as char else c
  }

  /**
   * `toLowerCase` on a string of ASCII letters, digits and `_`, which is all
   * that `ReplaceNonAlnum` leaves.
   */
  function Lower(s: string): (r: string)
    ensures |r| == |s|
    ensures forall i :: 0 <= i < |s| ==> r[i] == LowerChar(s[i])
    decreases |s|
  {
    if s == [] then [] else [LowerChar(s[0])] + Lower(s[1..])
  }

  /** The stem of a downloaded image's name. */
  function Stem(title: string): string {
    Lower(ReplaceNonAlnum(title))
  }

  /**
   * The `download` name of a post's image: the title with every character
   * other than an ASCII letter or digit replaced by `_`, lowercased, and
   * `.png` appended; one stem character per title character, each of them
   * a lower-case letter, a digit or `_`.
   */
  function ImageFileName(title: string): (r: string)
    ensures |r| == |title| + 4
    ensures r[|title|..] == ".png"
    ensures forall i :: 0 <= i < |title| ==> IsStemChar(r[i])
    ensures forall i :: 0 <= i < |title| ==>
      r[i] == if IsAsciiAlnum(title[i]) then LowerChar(title[i]) else '_'
  {
    Stem(title) + ".png"
  }

  /** A string made only of stem characters is its own stem. */
  lemma StemFixesStemChars(s: string)
    requires forall i :: 0 <= i < |s| ==> IsStemChar(s[i])
    ensures Stem(s) == s
  {
    forall i | 0 <= i < |s| ensures Stem(s)[i] == s[i] {
      assert IsStemChar(s[i]);
    }
  }

  /** Sanitising a stem again changes nothing. */
  lemma StemIdempotent(title: string)
    ensures Stem(Stem(title)) == Stem(title)
  {
    var f := ImageFileName(title);
    assert Stem(title) == f[..|title|];
    StemFixesStemChars(Stem(title));
  }

  /** The exported file's `download` name. */
  function ExportFileName(c: Campaign): string {
    c.name + "_generated_content.json"
  }

  /** What the export hands to the browser: the file name and what the JSON file holds. */
  datatype Export = Export(fileName: string, campaign: Campaign, posts: seq<GeneratedPost>)

  /** `response.data || []`: an absent list reads as empty. */
  function OrEmpty<T>(data: Option<seq<T>>): seq<T> {
    data.GetOr([])
  }

  // ----- the component -----

  class Panel {
    var campaigns: seq<Campaign>
    var loading: bool
    var selectedCampaignForResults: Option<Campaign>
    var generatedPosts: seq<GeneratedPost>
    var loadingResults: bool

    /** The `useState` initial values. */
    constructor ()
      ensures campaigns == [] && loading
      ensures selectedCampaignForResults == None && generatedPosts == [] && !loadingResults
    {
      campaigns := [];
      loading := true;
      selectedCampaignForResults := None;
      generatedPosts := [];
      loadingResults := false;
    }

    /** `loadCampaigns`, given what `GET /campaigns` resolves to; loading ends either way. */
    method LoadCampaigns(reply: Response<Option<seq<Campaign>>>)
      modifies this`campaigns, this`loading
      ensures !loading
      ensures campaigns == if reply.Ok? then OrEmpty(reply.data) else old(campaigns)
    {
      match reply {
        case Ok(data) => campaigns := OrEmpty(data);
        case Failed(_) =>
      }
      loading := false;
    }

    /**
     * `loadGeneratedPosts(campaignId)`, given what the posts request for that
     * campaign resolves to; loading ends either way.
     */
    method LoadGeneratedPosts(campaignId: string, reply: Response<Option<seq<GeneratedPost>>>)
      modifies this`generatedPosts, this`loadingResults
      ensures !loadingResults
      ensures generatedPosts == if reply.Ok? then OrEmpty(reply.data) else old(generatedPosts)
    {
      loadingResults := true;
      match reply {
        case Ok(data) => generatedPosts := OrEmpty(data);
        case Failed(_) =>
      }
      loadingResults := false;
    }

    /** `handleViewResults`: select the campaign, then load its posts. */
    method HandleViewResults(campaign: Campaign, reply: Response<Option<seq<GeneratedPost>>>)
      modifies this`selectedCampaignForResults, this`generatedPosts, this`loadingResults
      ensures selectedCampaignForResults == Some(campaign) && !loadingResults
      ensures generatedPosts == if reply.Ok? then OrEmpty(reply.data) else old(generatedPosts)
    {
      selectedCampaignForResults := Some(campaign);
      LoadGeneratedPosts(campaign.id, reply);
    }

    /** `handleCloseResults`: nothing selected, no posts. */
    method HandleCloseResults()
      modifies this`selectedCampaignForResults, this`generatedPosts
      ensures selectedCampaignForResults == None && generatedPosts == []
    {
      selectedCampaignForResults := None;
      generatedPosts := [];
    }

    /**
     * `exportResults`: nothing when no campaign is selected or there are no
     * posts; otherwise the selected campaign and its posts, in a file named
     * after the campaign.
     */
    method ExportResults() returns (download: Option<Export>)
      ensures download.None? <==> selectedCampaignForResults.None? || generatedPosts == []
      ensures download.Some? ==>
        && download.value.campaign == selectedCampaignForResults.value
        && download.value.posts == generatedPosts
        && download.value.fileName == selectedCampaignForResults.value.name + "_generated_content.json"
    {
      if selectedCampaignForResults.None? || |generatedPosts| == 0 {
        return None;
      }
      var campaign := selectedCampaignForResults.value;
      download := Some(Export(ExportFileName(campaign), campaign, generatedPosts));
    }
  }
}
