/** The weekly announcement (sendAnnouncementMessage in src/index.ts): the message
    template with the engineer's mention spliced in, passed through the
    link-preview rewrite before it is posted. */
module Announcement {
  import opened LinkPreview
  import opened Config

  /** Everything of the first line that comes before the mention. */
  const Headline: string := "\U{1F504} **New Support Engineer: "

  /** Where the support board lives; the scheme is kept apart so proofs can look
      at the part after it. */
  const IssuesBoardPath: string :=
    "linear.app/mento-labs/team/SUP/all"
    + "?layout=board&ordering=priority"
    + "&grouping=workflowState"
    + "&subGrouping=none"
    + "&showCompletedIssues=all"
    + "&showSubIssues=true"
    + "&showTriageIssues=false"

  const SupportIssuesUrl: string := "https://" + IssuesBoardPath

  /** The words after the first sentence of the link. */
  const Closing: string := " as you can."

  /** Everything between the mention and the markdown link. */
  const Lead: string :=
    " is on duty for this week!**\n"
    + "  Please monitor all alert channels"
    + " and work through as many "

  /** The markdown link to the support board. */
  const BoardText: string := "support issues"
  const BoardLink: string := "[" + BoardText + "](" + SupportIssuesUrl + ")"

  /** Everything after the mention. */
  const Body: string := Lead + BoardLink + Closing

  /** Discord's user-mention syntax. */
  function Mention(id: string): string {
    "<@" + id + ">"
  }

  /** The message as the template spells it, before the rewrite. The mention
      follows the headline, and when the id holds no '<' the mention's '<' is
      the only one in the message, so the message mentions exactly one user. */
  function MessageText(id: string): (m: string)
    ensures |Headline| + |id| + 3 <= |m| && m[|Headline|..|Headline| + |id| + 3] == Mention(id)
    ensures '<' !in id ==> forall k :: 0 <= k < |m| && m[k] == '<' ==> k == |Headline|
  {
    OnlyMentionOpens(id);
    Headline + Mention(id) + Body
  }

  /** Outside the mention, the template holds no '<'. */
  lemma OnlyMentionOpens(id: string)
    ensures var m := Headline + Mention(id) + Body;
            '<' !in id ==> forall k :: 0 <= k < |m| && m[k] == '<' ==> k == |Headline|
  {
    var m := Headline + Mention(id) + Body;
    var h := |Headline|;
    if '<' !in id {
      HeadlineHasNoAngle();
      BodyHasNoAngle();
      forall k | 0 <= k < |m| && k != h
        ensures m[k] != '<'
      {
        if k < h {
          assert m[k] == Headline[k];
        } else if k == h + 1 {
          assert m[k] == '@';
        } else if k < h + 2 + |id| {
          assert m[k] == id[k - h - 2];
        } else if k == h + 2 + |id| {
          assert m[k] == '>';
        } else {
          assert m[k] == Body[k - h - 3 - |id|];
        }
      }
    }
  }

  lemma HeadlineHasNoAngle()
    ensures '<' !in Headline
  {
  }

  lemma BodyHasNoAngle()
    ensures '<' !in Body
  {
    LeadHasNoAngle();
    BoardPathHasNoColonOrAngle();
    assert '<' !in "https://";
    assert '<' !in BoardText;
    assert '<' !in Closing;
  }

  lemma LeadHasNoAngle()
    ensures '<' !in Lead
  {
    LeadDutyIsPlain();
    LeadMonitorIsPlain();
    LeadWorkIsPlain();
  }

  lemma LeadDutyIsPlain()
    ensures '<' !in " is on duty for this week!**\n"
  {
  }

  lemma LeadMonitorIsPlain()
    ensures '<' !in "  Please monitor all alert channels"
  {
  }

  lemma LeadWorkIsPlain()
    ensures '<' !in " and work through as many "
  {
  }

  /** What is sent as the message content. */
  function AnnouncementContent(id: string): string {
    Sanitize(MessageText(id))
  }

  /** The board link is a markdown link, so the rewrite leaves it alone: its text
      has no scheme, and the only ':' of its target comes right after the 'h'
      that the lookbehind protects. */
  lemma BoardLinkKept()
    ensures Sanitize(BoardLink) == BoardLink
  {
    assert NoScheme(BoardText) by {
      NoSchemeWithoutHOrColon(BoardText);
    }
    assert NoScheme(SupportIssuesUrl[1..]) by {
      BoardUrlTail();
      BoardPathHasNoColonOrAngle();
      assert ':' !in "//" + IssuesBoardPath;
      NoSchemeAcross("ttps:", "//" + IssuesBoardPath);
    }
    MarkdownLinkKept(BoardText, SupportIssuesUrl);
  }

  /** The board path holds no ':' and no '<'. */
  lemma BoardPathHasNoColonOrAngle()
    ensures ':' !in IssuesBoardPath && '<' !in IssuesBoardPath
  {
    BoardPathStartIsPlain();
    BoardPathLayoutIsPlain();
    BoardPathGroupingIsPlain();
    BoardPathSubGroupingIsPlain();
    BoardPathCompletedIsPlain();
    BoardPathSubIssuesIsPlain();
    BoardPathTriageIsPlain();
  }

  lemma BoardPathStartIsPlain()
    ensures ':' !in "linear.app/mento-labs/team/SUP/all" && '<' !in "linear.app/mento-labs/team/SUP/all"
  {
  }

  lemma BoardPathLayoutIsPlain()
    ensures ':' !in "?layout=board&ordering=priority" && '<' !in "?layout=board&ordering=priority"
  {
  }

  lemma BoardPathGroupingIsPlain()
    ensures ':' !in "&grouping=workflowState" && '<' !in "&grouping=workflowState"
  {
  }

  lemma BoardPathSubGroupingIsPlain()
    ensures ':' !in "&subGrouping=none" && '<' !in "&subGrouping=none"
  {
  }

  lemma BoardPathCompletedIsPlain()
    ensures ':' !in "&showCompletedIssues=all" && '<' !in "&showCompletedIssues=all"
  {
  }

  lemma BoardPathSubIssuesIsPlain()
    ensures ':' !in "&showSubIssues=true" && '<' !in "&showSubIssues=true"
  {
  }

  lemma BoardPathTriageIsPlain()
    ensures ':' !in "&showTriageIssues=false" && '<' !in "&showTriageIssues=false"
  {
  }

  lemma BoardUrlTail()
    ensures SupportIssuesUrl[1..] == "ttps:" + ("//" + IssuesBoardPath)
  {
    SecureUrlTail(IssuesBoardPath);
  }

  /** Past its 'h', an "https://" address is "ttps:" followed by "//" and the rest. */
  lemma SecureUrlTail(p: string)
    ensures ("https://" + p)[1..] == "ttps:" + ("//" + p)
  {
    assert "https://" == "h" + "ttps:" + "//";
    assert "https://" + p == "h" + ("ttps:" + ("//" + p));
  }

  /** The template text after the mention comes out of the rewrite unchanged. */
  lemma BodyKept()
    ensures Sanitize(Body) == Body
  {
    assert Sanitize(Lead) == Lead by {
      NoSchemeWithoutHOrColon(Lead);
      NoSchemeUnchanged(Lead);
    }
    assert Sanitize(Closing) == Closing by {
      NoSchemeWithoutHOrColon(Closing);
      NoSchemeUnchanged(Closing);
    }
    BoardLinkKept();
    assert Seam(Lead, BoardLink);
    SplitAtSeam(Lead, BoardLink);
    assert Seam(Lead + BoardLink, Closing);
    SplitAtSeam(Lead + BoardLink, Closing);
  }

  /** A snowflake has no letter 'h', so the headline and the mention hold no URL. */
  lemma PrefixKept(id: string)
    requires IsSnowflake(id)
    ensures Sanitize(Headline + Mention(id)) == Headline + Mention(id)
  {
    var p := Headline + Mention(id);
    assert 'h' !in p by {
      assert p == Headline + "<@" + id + ">";
      assert forall k :: 0 <= k < |id| ==> id[k] != 'h';
    }
    NoSchemeWithoutHOrColon(p);
    NoSchemeUnchanged(p);
  }

  /** For every Discord id the table can hold, the message is sent exactly as the
      template spells it: the only URL in it already sits in a markdown link. */
  lemma ContentIsTemplate(id: string)
    requires IsSnowflake(id)
    ensures AnnouncementContent(id) == MessageText(id)
    ensures AnnouncementContent(id) == Headline + Mention(id) + Body
  {
    PrefixKept(id);
    BodyKept();
    assert Body[0] == Lead[0] == ' ';
    SplitAtSeam(Headline + Mention(id), Body);
  }

  /** The mention names exactly the engineer: two ids give the same message only
      if they are the same id. */
  lemma MessageNamesEngineer(id1: string, id2: string)
    requires MessageText(id1) == MessageText(id2)
    ensures id1 == id2
  {
    var m1, m2 := MessageText(id1), MessageText(id2);
    assert |id1| == |id2|;
    var off := |Headline| + 2;
    forall k | 0 <= k < |id1|
      ensures id1[k] == id2[k]
    {
      assert m1[off + k] == id1[k];
      assert m2[off + k] == id2[k];
    }
  }
}
