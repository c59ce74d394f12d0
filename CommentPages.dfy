/** The add forms of the two comment pages, pages/Comments.tsx (General comments) and
    pages/APRV.tsx (APRV entries): trimmed values, a guard on the required fields, and drafts
    cleared after a successful add. */
module CommentPages {
  import opened Types
  import opened Strings
  import opened Collections
  import opened DataContext

  class CommentsPage {
    const provider: Provider
    var newComment: string

    constructor (provider: Provider)
      ensures this.provider == provider && newComment == ""
    {
      this.provider := provider;
      newComment := "";
    }

    /** `handleAdd` with the generated id `newId`: a draft that is blank once trimmed adds
        nothing; otherwise its trimmed text is added and the draft cleared. */
    method HandleAdd(newId: string) returns (added: bool)
      requires provider.Valid()
      modifies this, provider
      ensures provider.Valid()
      ensures added <==> Trim(old(newComment)) != []
      ensures added ==> provider.CommentCommitted(General, Append(old(provider.generalComments), NewGeneralComment(newId, Trim(old(newComment)))))
      ensures added ==> newComment == ""
      ensures added ==> var t := provider.generalComments[|provider.generalComments| - 1].text;
        t != [] && !IsSpace(t[0]) && !IsSpace(t[|t| - 1])
      ensures !added ==> unchanged(this) && unchanged(provider)
    {
      var text := Trim(newComment);
      if text != [] {
        provider.AddGeneralComment(text, newId);
        newComment := "";
        return true;
      }
      return false;
    }
  }

  class AprvPage {
    const provider: Provider
    var newTitle: string
    var newApproval: string
    var newAdditional: string
    var newRemarks: string

    constructor (provider: Provider)
      ensures this.provider == provider
      ensures newTitle == "" && newApproval == "" && newAdditional == "" && newRemarks == ""
    {
      this.provider := provider;
      newTitle, newApproval, newAdditional, newRemarks := "", "", "", "";
    }

    /** The entry the form would add with id `newId`: all four fields trimmed. */
    function Draft(newId: string): (c: CommentItem)
      reads this
    {
      NewAprvComment(newId, Trim(newTitle), Trim(newApproval), Trim(newAdditional), Trim(newRemarks))
    }

    /** `handleAdd` with the generated id `newId`: an entry is added only when both the title
        ("applying for") and the approval text are non-blank once trimmed; the trimmed draft
        goes in and the four drafts are cleared. */
    method HandleAdd(newId: string) returns (added: bool)
      requires provider.Valid()
      modifies this, provider
      ensures provider.Valid()
      ensures added <==> old(Draft(newId)).text != [] && old(Draft(newId)).title != []
      ensures added ==> provider.CommentCommitted(Aprv, Append(old(provider.aprvComments), old(Draft(newId))))
      ensures added ==> newTitle == "" && newApproval == "" && newAdditional == "" && newRemarks == ""
      ensures !added ==> unchanged(this) && unchanged(provider)
    {
      var entry := Draft(newId);
      if entry.text != [] && entry.title != [] {
        Submit(entry);
        return true;
      }
      return false;
    }

    /** Adds `entry` to the APRV collection and clears the four drafts. */
    method Submit(entry: CommentItem)
      requires provider.Valid() && entry.category == Aprv
      modifies this, provider
      ensures provider.Valid()
      ensures provider.CommentCommitted(Aprv, Append(old(provider.aprvComments), entry))
      ensures newTitle == "" && newApproval == "" && newAdditional == "" && newRemarks == ""
    {
      newTitle, newApproval, newAdditional, newRemarks := "", "", "", "";
      provider.AddAprvComment(entry.title, entry.text, entry.additionalInfo, entry.remarks, entry.id);
      assert NewAprvComment(entry.id, entry.title, entry.text, entry.additionalInfo, entry.remarks) == entry;
    }
  }
}
