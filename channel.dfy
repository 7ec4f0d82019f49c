/** The channel family of SelfCord/channel.py as one closed sum type: the
    thirteen concrete classes (the abstract base is never built on its own),
    their constructor defaults and their string rendering. */
module Channel {
  import opened Wrappers
  import Text

  const DefaultBitRate: int := 96000

  datatype Channel =
    | TextChannel(id: int, name: string, nsfw: bool, topic: Option<string> := None)
    | VoiceChannel(id: int, name: string, bitRate: int := DefaultBitRate)
    | DMChannel(id: int)
    | GroupDMChannel(id: int)
    | GuildCategoryChannel(id: int)
    | GuildAnnouncementChannel(id: int)
    | AnnouncementThreadChannel(id: int)
    | PublicThreadChannel(id: int)
    | PrivateThreadChannel(id: int)
    | GuildStageVoiceChannel(id: int)
    | GuildDirectoryChannel(id: int)
    | GuildForumChannel(id: int)
    | GuildMediaChannel(id: int)

  /** The type codes the channel fetch recognises. */
  const KnownCodes: set<int> := {0, 1, 2, 3, 4, 5, 10, 11, 12, 13, 14, 15, 16}

  /** The server's type code for each variant: the reference numbering the
      channel fetch dispatches on. */
  function TypeCode(c: Channel): (code: int)
    ensures code in KnownCodes
    ensures code == 0 <==> c.TextChannel?
    ensures code == 2 <==> c.VoiceChannel?
  {
    match c
    case TextChannel(_, _, _, _) => 0
    case DMChannel(_) => 1
    case VoiceChannel(_, _, _) => 2
    case GroupDMChannel(_) => 3
    case GuildCategoryChannel(_) => 4
    case GuildAnnouncementChannel(_) => 5
    case AnnouncementThreadChannel(_) => 10
    case PublicThreadChannel(_) => 11
    case PrivateThreadChannel(_) => 12
    case GuildStageVoiceChannel(_) => 13
    case GuildDirectoryChannel(_) => 14
    case GuildForumChannel(_) => 15
    case GuildMediaChannel(_) => 16
  }

  /** Distinct variants have distinct codes, so a code names one variant. */
  lemma TypeCodeNamesVariant(a: Channel, b: Channel)
    requires TypeCode(a) == TypeCode(b)
    ensures a.TextChannel? == b.TextChannel? && a.VoiceChannel? == b.VoiceChannel?
    ensures a.DMChannel? == b.DMChannel? && a.GroupDMChannel? == b.GroupDMChannel?
    ensures a.GuildCategoryChannel? == b.GuildCategoryChannel?
    ensures a.GuildAnnouncementChannel? == b.GuildAnnouncementChannel?
    ensures a.AnnouncementThreadChannel? == b.AnnouncementThreadChannel?
    ensures a.PublicThreadChannel? == b.PublicThreadChannel?
    ensures a.PrivateThreadChannel? == b.PrivateThreadChannel?
    ensures a.GuildStageVoiceChannel? == b.GuildStageVoiceChannel?
    ensures a.GuildDirectoryChannel? == b.GuildDirectoryChannel?
    ensures a.GuildForumChannel? == b.GuildForumChannel?
    ensures a.GuildMediaChannel? == b.GuildMediaChannel?
  {
  }

  /** Constructor defaults: a text channel has no topic, a voice channel 96000 bit/s. */
  lemma ConstructorDefaults(id: int, name: string, nsfw: bool)
    ensures TextChannel(id, name, nsfw).topic == None
    ensures VoiceChannel(id, name).bitRate == 96000
    ensures TextChannel(id, name, nsfw).id == id && VoiceChannel(id, name).id == id
  {
  }

  function PyBool(b: bool): string {
    if b then "True" else "False"
  }

  /** `str()` of a `str | None` value. */
  function PyOptional(o: Option<string>): string {
    match o
    case None => "None"
    case Some(s) => s
  }

  const BasePrefix: string := "BaseChannel(id="
  const TextPrefix: string := "TextChannel(id="

  /** `str(channel)`, and equally `repr(channel)`: only TextChannel overrides
      the base rendering, so every other variant, VoiceChannel included,
      shows as `BaseChannel(id=…)`. */
  function Str(c: Channel): (s: string)
    ensures c.TextChannel? ==>
      s == TextPrefix + Text.IntToString(c.id) + ", name=" + c.name + ", nsfw=" + PyBool(c.nsfw)
           + ", topic=" + PyOptional(c.topic) + ")"
    ensures !c.TextChannel? ==> s == BasePrefix + Text.IntToString(c.id) + ")"
  {
    match c
    case TextChannel(id, name, nsfw, topic) =>
      TextPrefix + Text.IntToString(id) + ", name=" + name + ", nsfw=" + PyBool(nsfw)
      + ", topic=" + PyOptional(topic) + ")"
    case _ => BasePrefix + Text.IntToString(c.id) + ")"
  }

  /** The id can be read back from the base rendering. */
  lemma {:induction false} BaseRenderingKeepsId(c: Channel)
    requires !c.TextChannel?
    ensures var s := Str(c);
            |s| > |BasePrefix| + 1 && s[..|BasePrefix|] == BasePrefix && s[|s| - 1] == ')' &&
            var digits := s[|BasePrefix|..|s| - 1];
            digits == Text.IntToString(c.id) &&
            (digits[0] == '-' ==> Text.IsDigits(digits[1..])) &&
            (digits[0] != '-' ==> Text.IsDigits(digits)) &&
            Text.ParseInt(digits) == c.id
  {
    var d := Text.IntToString(c.id);
    var s := BasePrefix + d + ")";
    assert Str(c) == s;
    assert s[..|BasePrefix|] == BasePrefix;
    assert s[|BasePrefix|..|s| - 1] == d;
    Text.IntRoundTrip(c.id);
  }

  /** Two non-text channels render alike exactly when their ids agree: the
      variant, and a voice channel's name and bit rate, do not show. */
  lemma BaseRenderingShowsOnlyId(a: Channel, b: Channel)
    requires !a.TextChannel? && !b.TextChannel?
    ensures Str(a) == Str(b) <==> a.id == b.id
  {
    if Str(a) == Str(b) {
      BaseRenderingKeepsId(a);
      BaseRenderingKeepsId(b);
    }
  }

  /** A text channel never renders like any other variant. */
  lemma TextRenderingIsDistinct(t: Channel, c: Channel)
    requires t.TextChannel? && !c.TextChannel?
    ensures Str(t) != Str(c)
  {
    assert Str(t)[0] == 'T' && Str(c)[0] == 'B';
  }
}
