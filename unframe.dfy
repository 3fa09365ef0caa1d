/**
 * The daemon's window (UnrealNotifierDeamon/unFrame.cpp, unFrame.h): the state it keeps
 * between timer ticks, the parsing timer's tick, the project-path choice and the two
 * status checkboxes, reduced to the image name each checkbox widget was created with.
 *
 * File-system queries, the log reader, the change test and the chat-id lookups are
 * inputs: isDirectory and listing describe the current project path, readLog(path)
 * stands for parseUELog(getFileToReading(path), EParserMask::editorStart), and a
 * chat-id lookup is what tlgrm::getChatId returned for the login in the text box.
 */
module UnFrame {
  import opened Wrappers
  import opened ProjectLayout
  import opened PollCycle
  import Tlgrm

  /** The parsing timer fires every 7 seconds. */
  const ParsingTimerPeriodMs: nat := 7000

  const ResourcesFolder: string := "Resources\\"
  const CheckboxOnImageName: string := ResourcesFolder + "CheckBox_On.png"
  const CheckboxOffImageName: string := ResourcesFolder + "CheckBox_Off.png"
  const MissingUprojectWarning: string := "Cannot find Uproject file on entered path"

  function CheckboxImageName(checkboxValue: bool): string
  {
    if checkboxValue then CheckboxOnImageName else CheckboxOffImageName
  }

  /** The lambda in updateImageCheckbox: a checkbox's state read back from its image name. */
  function CheckboxOldValue(imageName: string): (r: Option<bool>)
    ensures r == Some(true) <==> imageName == CheckboxOnImageName
    ensures r == Some(false) <==> imageName == CheckboxOffImageName
  {
    if imageName == CheckboxOnImageName then Some(true)
    else if imageName == CheckboxOffImageName then Some(false)
    else None
  }

  /** What updateImageCheckbox does to the widget: keep it, or destroy it and build a new one. */
  datatype CheckboxUpdate = CheckboxUpdate(rebuilt: bool, imageName: string)

  /**
   * updateImageCheckbox (unFrame.cpp:83-120) on a slot holding a widget with the given image
   * name, or none: afterwards the widget reads back as checkboxValue, and it is rebuilt
   * exactly when it did not already read back as checkboxValue.
   */
  function UpdateImageCheckbox(current: Option<string>, checkboxValue: bool): (r: CheckboxUpdate)
    ensures CheckboxOldValue(r.imageName) == Some(checkboxValue)
    ensures r.rebuilt <==> current.None? || CheckboxOldValue(current.value) != Some(checkboxValue)
    ensures !r.rebuilt ==> current == Some(r.imageName)
  {
    if current.Some? && CheckboxOldValue(current.value) == Some(checkboxValue) then
      CheckboxUpdate(false, current.value)
    else
      CheckboxUpdate(true, CheckboxImageName(checkboxValue))
  }

  /**
   * isParsingLoopActive (unFrame.cpp:122-126): the gate is open exactly when a chat id was
   * found and the project path is a directory whose first descriptor-bearing entry does
   * not begin with ".uproject".
   */
  function IsParsingLoopActive(isDirectory: bool, listing: seq<string>, chatLookup: Option<int>): (r: bool)
    ensures r <==> chatLookup.Some? && isDirectory && exists i | 0 <= i < |listing| ::
      && Contains(listing[i], UprojectExt)
      && (forall k | 0 <= k < i :: !Contains(listing[k], UprojectExt))
      && !OccursAt(listing[i], UprojectExt, 0)
  {
    ValidProjectPathIff(isDirectory, listing);
    ProjectName(isDirectory, listing) != "" && chatLookup.Some?
  }

  class Frame {
    /** m_projectPath */
    var projectPath: string
    /** m_parsedValue: the mask read on the last tick that got past both chat-id lookups. */
    var parsedValue: Option<Mask>
    /** The image names of m_browseToCheckboxImage and m_telegrmCheckboxImage; None while null. */
    var browseToCheckbox: Option<string>
    var telegrmCheckbox: Option<string>

    /**
     * The constructor (unFrame.cpp:128-161): no project path and no mask yet; both
     * checkboxes are built unchecked, since the empty path is no directory and the
     * login box starts empty.
     */
    constructor ()
      ensures projectPath == "" && parsedValue == None
      ensures browseToCheckbox == Some(CheckboxOffImageName)
      ensures telegrmCheckbox == Some(CheckboxOffImageName)
    {
      projectPath := "";
      parsedValue := None;
      browseToCheckbox := Some(UpdateImageCheckbox(None, ProjectName(false, []) != "").imageName);
      telegrmCheckbox := Some(UpdateImageCheckbox(None, false).imageName);
    }

    /** updateBrowseToImageCheckbox (unFrame.cpp:168-172): checked exactly when a project name is found. */
    method UpdateBrowseToImageCheckbox(isDirectory: bool, listing: seq<string>)
      modifies this`browseToCheckbox
      ensures browseToCheckbox.Some?
      ensures CheckboxOldValue(browseToCheckbox.value) == Some(ProjectName(isDirectory, listing) != "")
      ensures browseToCheckbox == Some(UpdateImageCheckbox(old(browseToCheckbox), ProjectName(isDirectory, listing) != "").imageName)
    {
      var name := TryGetProjectName(isDirectory, listing);
      var u := UpdateImageCheckbox(browseToCheckbox, name != "");
      browseToCheckbox := Some(u.imageName);
    }

    /**
     * updateTelegrmImageCheckbox (unFrame.cpp:174-182), also all onTelegrmLoginChanged does:
     * checked exactly when the login is non-empty and its lookup found a chat id; the
     * lookup is made only for a non-empty login.
     */
    method UpdateTelegrmImageCheckbox(tlgrmLogin: string, chatLookup: Option<int>)
      modifies this`telegrmCheckbox
      ensures telegrmCheckbox.Some?
      ensures CheckboxOldValue(telegrmCheckbox.value) == Some(tlgrmLogin != "" && chatLookup.Some?)
      ensures telegrmCheckbox == Some(UpdateImageCheckbox(old(telegrmCheckbox), tlgrmLogin != "" && chatLookup.Some?).imageName)
    {
      var checkboxValue := tlgrmLogin != "" && chatLookup.Some?;
      var u := UpdateImageCheckbox(telegrmCheckbox, checkboxValue);
      telegrmCheckbox := Some(u.imageName);
    }

    /**
     * onBrowseToClicked (unFrame.cpp:219-236): chosen is the folder the dialog returned, None
     * when it was cancelled; isDirectory and listing describe that folder. The folder is
     * adopted even when it holds no descriptor, and then a warning is shown.
     */
    method OnBrowseToClicked(chosen: Option<string>, isDirectory: bool, listing: seq<string>)
      returns (warning: Option<string>)
      modifies this`projectPath, this`browseToCheckbox
      ensures chosen.None? ==>
        warning == None && projectPath == old(projectPath) && browseToCheckbox == old(browseToCheckbox)
      ensures chosen.Some? ==> projectPath == chosen.value
      ensures chosen.Some? ==> warning == if ProjectName(isDirectory, listing) == "" then Some(MissingUprojectWarning) else None
      ensures chosen.Some? ==>
        browseToCheckbox.Some? && CheckboxOldValue(browseToCheckbox.value) == Some(ProjectName(isDirectory, listing) != "")
    {
      if chosen.None? {
        return None;
      }
      var name := TryGetProjectName(isDirectory, listing);
      var isValidProjectPath := name != "";
      projectPath := chosen.value;
      warning := None;
      if !isValidProjectPath {
        warning := Some(MissingUprojectWarning);
      }
      UpdateBrowseToImageCheckbox(isDirectory, listing);
    }

    /**
     * parseDataFromLog (unFrame.cpp:193-212): without a chat id it returns at once; otherwise
     * it reads the log, sends "Start Editor" to that chat only if a mask was cached and the
     * change test holds between it and the new mask, and caches the new mask either way.
     */
    method ParseDataFromLog(chatLookup: Option<int>, isDirectory: bool, listing: seq<string>,
                            readLog: string -> Mask, justChanged: (Mask, Mask) -> bool)
      returns (sent: Option<Message>)
      modifies this`parsedValue
      ensures var recent := readLog(GetPathToProjectLogFile(projectPath, isDirectory, listing));
        Outcome(sent, parsedValue) == Tick(old(parsedValue), true, chatLookup, recent, justChanged)
      ensures chatLookup.None? ==> sent == None && parsedValue == old(parsedValue)
      ensures chatLookup.Some? ==>
        parsedValue == Some(readLog(GetPathToProjectLogFile(projectPath, isDirectory, listing)))
      ensures sent.Some? <==>
        chatLookup.Some? && old(parsedValue).Some? &&
        justChanged(old(parsedValue).value, readLog(GetPathToProjectLogFile(projectPath, isDirectory, listing)))
      ensures sent.Some? ==> sent.value == Message(StartEditorText, chatLookup.value)
    {
      if chatLookup.None? {
        return None;
      }
      var logFilePath := GetPathToProjectLogFile(projectPath, isDirectory, listing);
      var recentParsedValue := readLog(logFilePath);
      var isFirstParsing := parsedValue.None?;
      sent := None;
      if !isFirstParsing && justChanged(parsedValue.value, recentParsedValue) {
        sent := Some(Message(StartEditorText, chatLookup.value));
      }
      parsedValue := Some(recentParsedValue);
    }

    /**
     * parsingLoop (unFrame.cpp:184-191), one timer tick: gateLookup is the lookup made by
     * isParsingLoopActive, tickLookup the one parseDataFromLog makes; when the gate is closed
     * nothing is read, sent or cached.
     */
    method ParsingLoop(gateLookup: Option<int>, tickLookup: Option<int>, isDirectory: bool, listing: seq<string>,
                       readLog: string -> Mask, justChanged: (Mask, Mask) -> bool)
      returns (sent: Option<Message>)
      modifies this`parsedValue
      ensures var recent := readLog(GetPathToProjectLogFile(projectPath, isDirectory, listing));
        Outcome(sent, parsedValue) ==
          Tick(old(parsedValue), IsParsingLoopActive(isDirectory, listing, gateLookup), tickLookup, recent, justChanged)
      ensures !IsParsingLoopActive(isDirectory, listing, gateLookup) ==> sent == None && parsedValue == old(parsedValue)
      ensures old(parsedValue).None? ==> sent == None
    {
      if IsParsingLoopActive(isDirectory, listing, gateLookup) {
        sent := ParseDataFromLog(tickLookup, isDirectory, listing, readLog, justChanged);
      } else {
        sent := None;
      }
    }
  }

  /**
   * One timer tick wired to the Telegram module as it is written: the gate's lookup is
   * ChatIdCache.GetChatId, made only when a project name is found, and it never yields a
   * chat id, so no tick ever reads the log, sends a message or changes the cached mask.
   */
  method ParsingLoopWithTelegram(frame: Frame, cache: Tlgrm.ChatIdCache, tlgrmLogin: string,
                                 transfer: Tlgrm.Transfer, isDirectory: bool, listing: seq<string>,
                                 readLog: string -> Mask, justChanged: (Mask, Mask) -> bool)
    returns (sent: Option<Message>)
    requires cache.Valid()
    requires transfer.Performed? ==> forall k | 0 <= k < |transfer.chunks| ::
      transfer.chunks[k].size < Tlgrm.SizeTModulus && transfer.chunks[k].nmemb < Tlgrm.SizeTModulus
    modifies frame`parsedValue, cache
    ensures cache.Valid()
    ensures sent == None && frame.parsedValue == old(frame.parsedValue)
  {
    var gateLookup: Option<int> := None;
    if ProjectName(isDirectory, listing) != "" {
      gateLookup := cache.GetChatId(tlgrmLogin, transfer);
    }
    // parseDataFromLog's own lookup is reached only past the gate, which stays closed;
    // GetChatId would answer None there too.
    sent := frame.ParsingLoop(gateLookup, None, isDirectory, listing, readLog, justChanged);
  }
}
