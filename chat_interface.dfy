/** The logic of src/components/chat/ChatInterface.tsx: the send guard and
    send button, image validation, the Enter-key rule and the
    copied-message marker. The draft text stands for the message form's
    `content` field. */
module ChatInterface {
  import opened Types
  import Text
  import Chat

  /** `selectedImage` is truthy: present and not the empty string. */
  predicate HasImage(img: Option<string>) {
    img.Some? && img.value != ""
  }

  /** `selectedImage || undefined` */
  function ImageToSend(img: Option<string>): (r: Option<string>)
    ensures r.Some? <==> HasImage(img)
    ensures r.Some? ==> r == img
  {
    if HasImage(img) then img else None
  }

  /** `!content.trim() && !selectedImage`: the send handler returns early
      and the send button is disabled. There is something to send exactly
      when the draft has a character that is not white space, or an image
      is selected. */
  predicate NothingToSend(content: string, img: Option<string>)
    ensures NothingToSend(content, img) <==>
      (forall k :: 0 <= k < |content| ==> Text.IsJsSpace(content[k])) && !HasImage(img)
  {
    Text.TrimEmptyIff(content);
    Text.Trim(content) == "" && !HasImage(img)
  }

  /** The upload limit, 5 MiB. */
  const MaxImageBytes: nat := 5 * 1024 * 1024

  /** The file picked in the upload dialog. */
  datatype PickedFile = PickedFile(size: nat, mimeType: string)

  /** What `handleImageUpload` decides about a pick. */
  datatype ImageCheck = NoFile | TooLarge | NotAnImage | Accepted

  /** `handleImageUpload`'s checks: no file, then size, then type. */
  function CheckImage(file: Option<PickedFile>): (r: ImageCheck)
    ensures r == NoFile <==> file.None?
    ensures r == TooLarge <==> file.Some? && file.value.size > MaxImageBytes
    ensures r == NotAnImage <==>
      file.Some? && file.value.size <= MaxImageBytes && !Text.StartsWith(file.value.mimeType, "image/")
    ensures r == Accepted <==>
      file.Some? && file.value.size <= MaxImageBytes && Text.StartsWith(file.value.mimeType, "image/")
  {
    if file.None? then NoFile
    else if file.value.size > 5 * 1024 * 1024 then TooLarge
    else if !Text.StartsWith(file.value.mimeType, "image/") then NotAnImage
    else Accepted
  }

  /** Exactly 5 MiB passes, one byte more does not, whatever the type; a
      small file of another type is refused. */
  lemma ImageLimitExamples()
    ensures CheckImage(Some(PickedFile(5242880, "image/png"))) == Accepted
    ensures CheckImage(Some(PickedFile(5242881, "image/png"))) == TooLarge
    ensures CheckImage(Some(PickedFile(5242881, "text/plain"))) == TooLarge
    ensures CheckImage(Some(PickedFile(10, "text/plain"))) == NotAnImage
  {
    assert "image/png"[..6] == "image/";
    assert "text/plain"[..6] != "image/" by {
      assert "text/plain"[0] != "image/"[0];
    }
  }

  /** `e.key === "Enter" && !e.shiftKey` */
  predicate SubmitsOnKey(key: string, shift: bool) {
    key == "Enter" && !shift
  }

  /** The chat pane's own state beside the chat store it drives. */
  class ChatPane {
    const chatroomId: string
    const store: Chat.ChatStore
    var draft: string
    var selectedImage: Option<string>
    var copiedMessageId: Option<string>

    constructor (store: Chat.ChatStore, chatroomId: string)
      ensures this.store == store && this.chatroomId == chatroomId
      ensures draft == "" && selectedImage == None && copiedMessageId == None
    {
      this.store := store;
      this.chatroomId := chatroomId;
      draft := "";
      selectedImage := None;
      copiedMessageId := None;
    }

    /** The send button's `disabled` attribute. */
    predicate SendDisabled()
      reads this
    {
      NothingToSend(draft, selectedImage)
    }

    /** Typing in the message box. */
    method EditDraft(text: string)
      modifies this`draft
      ensures draft == text
    {
      draft := text;
    }

    /** `handleSendMessage`: does nothing when there is nothing to send;
        otherwise adds one user message with the trimmed text and the
        selected image, then clears the draft and the image. The result says
        whether a message was sent, which is exactly when the send button is
        enabled. */
    method HandleSendMessage(freshId: string, now: int) returns (sent: bool)
      requires store.Valid()
      modifies this, store
      ensures store.Valid()
      ensures sent == !old(SendDisabled())
      ensures !sent ==> unchanged(this) && unchanged(store)
      ensures sent ==>
        store.chatrooms == Chat.EditRoom(old(store.chatrooms), chatroomId,
          Chat.Append(Chat.Stamp(Chat.MessageData(Text.Trim(old(draft)), true, ImageToSend(old(selectedImage))), freshId, now)))
        && store.isTyping && draft == "" && selectedImage == None
      ensures store.currentChatroomId == old(store.currentChatroomId) && store.searchQuery == old(store.searchQuery)
      ensures copiedMessageId == old(copiedMessageId)
    {
      var content := Text.Trim(draft);
      if content == "" && !HasImage(selectedImage) {
        return false;
      }
      store.AddMessage(chatroomId, Chat.MessageData(content, true, ImageToSend(selectedImage)), freshId, now);
      draft := "";
      selectedImage := None;
      sent := true;
    }

    /** `handleKeyPress`: Enter without Shift sends, any other key does not. */
    method HandleKeyPress(key: string, shift: bool, freshId: string, now: int) returns (sent: bool)
      requires store.Valid()
      modifies this, store
      ensures store.Valid()
      ensures sent <==> SubmitsOnKey(key, shift) && !old(SendDisabled())
      ensures !sent ==> unchanged(this) && unchanged(store)
      ensures sent ==>
        store.chatrooms == Chat.EditRoom(old(store.chatrooms), chatroomId,
          Chat.Append(Chat.Stamp(Chat.MessageData(Text.Trim(old(draft)), true, ImageToSend(old(selectedImage))), freshId, now)))
        && store.isTyping && draft == "" && selectedImage == None
      ensures store.currentChatroomId == old(store.currentChatroomId) && store.searchQuery == old(store.searchQuery)
      ensures copiedMessageId == old(copiedMessageId)
    {
      if key == "Enter" && !shift {
        sent := HandleSendMessage(freshId, now);
      } else {
        sent := false;
      }
    }

    /** `handleImageUpload`: a picked file that passes the checks becomes
        the selected image, given as the data URL the file reader produces;
        a refused one leaves the selection as it was. */
    method HandleImageUpload(file: Option<PickedFile>, dataUrl: string) returns (check: ImageCheck)
      modifies this`selectedImage
      ensures check == CheckImage(file)
      ensures selectedImage == if check == Accepted then Some(dataUrl) else old(selectedImage)
    {
      check := CheckImage(file);
      if check == Accepted {
        selectedImage := Some(dataUrl);
      }
    }

    /** The remove button on the image preview. */
    method ClearImage()
      modifies this`selectedImage
      ensures selectedImage == None
    {
      selectedImage := None;
    }

    /** `handleCopyMessage`: marks the message as copied when the clipboard
        write succeeds. */
    method HandleCopyMessage(m: Message, clipboardOk: bool)
      modifies this`copiedMessageId
      ensures copiedMessageId == if clipboardOk then Some(m.id) else old(copiedMessageId)
    {
      if clipboardOk {
        copiedMessageId := Some(m.id);
      }
    }

    /** The timer that clears the copied marker. */
    method ClearCopied()
      modifies this`copiedMessageId
      ensures copiedMessageId == None
    {
      copiedMessageId := None;
    }
  }
}
