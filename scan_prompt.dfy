/**
 * Prompt selection of the compliance-scan function: a fixed system
 * instruction and a user prompt chosen by scan type. A missing scan
 * context is represented by the empty string, which is falsy exactly as
 * `undefined` is.
 */
module ScanPrompt {
  import opened Text

  const SystemPrompt: string :=
    "You are a compliance scanning expert. Analyze code, policies, and data practices to identify compliance issues, risks, and recommendations."

  const CodeScanIntro: string := "Analyze the following code for privacy and compliance issues:\n" + "\n"

  /** Shown in a code scan prompt in place of an empty context. */
  const NoCodeContext: string := "No code context provided"

  /** The structured answer both finding-oriented prompts ask for; `location` is the only line that differs. */
  function FindingsFormat(location: string): string
  {
    "Provide findings in JSON format:\n"
    + "{\n"
    + "  \"findings\": [\n"
    + "    {\n"
    + "      \"title\": \"Issue title\",\n"
    + "      \"severity\": \"critical|high|medium|low\",\n"
    + "      \"description\": \"Detailed description\",\n"
    + "      \"location\": \"" + location + "\",\n"
    + "      \"recommendation\": \"How to fix\"\n"
    + "    }\n"
    + "  ]\n"
    + "}"
  }

  const CodeScanBody: string :=
    "\n"
    + "\n"
    + "Identify:\n"
    + "1. Data collection points (cookies, local storage, API calls)\n"
    + "2. PII handling\n"
    + "3. Third-party integrations\n"
    + "4. Potential GDPR/CCPA violations\n"
    + "5. Missing consent mechanisms\n"
    + "6. Insecure data practices\n"
    + "\n"
    + FindingsFormat("code location")

  const PolicyDriftPrompt: string :=
    "Analyze policy drift and suggest updates:\n"
    + "\n"
    + "Detect if:\n"
    + "1. New features added without policy updates\n"
    + "2. Third-party services changed\n"
    + "3. Data collection expanded\n"
    + "4. Jurisdiction requirements changed\n"
    + "5. User rights need updating\n"
    + "\n"
    + "Provide recommendations for policy updates."

  const LiveScanIntro: string := "Perform live compliance scan"

  const LiveScanBody: string :=
    ":\n"
    + "\n"
    + "Check for:\n"
    + "1. Active cookie consent banners\n"
    + "2. Privacy policy links\n"
    + "3. Data collection disclosures\n"
    + "4. GDPR compliance indicators\n"
    + "5. User rights implementation\n"
    + "6. Data retention policies\n"
    + "7. Cookie security (HttpOnly, Secure, SameSite attributes)\n"
    + "8. Third-party tracking scripts\n"
    + "9. Data encryption practices\n"
    + "\n"
    + FindingsFormat("location or component")

  /** The user prompt for a scan type; any type but the three known ones leaves it empty. */
  function UserPrompt(scanType: string, context: string): string
  {
    if scanType == "code_scan" then
      CodeScanIntro + (if context != "" then context else NoCodeContext) + CodeScanBody
    else if scanType == "policy_drift" then
      PolicyDriftPrompt
    else if scanType == "live_scan" then
      LiveScanIntro + (if context != "" then " for: " + context else "") + LiveScanBody
    else
      ""
  }

  predicate KnownScanType(scanType: string)
  {
    scanType == "code_scan" || scanType == "policy_drift" || scanType == "live_scan"
  }

  /** The user prompt is empty exactly for an unknown scan type. */
  lemma EmptyPromptIffUnknownType(scanType: string, context: string)
    ensures UserPrompt(scanType, context) == "" <==> !KnownScanType(scanType)
  {
    if scanType == "code_scan" {
      assert |UserPrompt(scanType, context)| >= |CodeScanIntro|;
    } else if scanType == "policy_drift" {
      assert |PolicyDriftPrompt| > 0;
    } else if scanType == "live_scan" {
      assert |UserPrompt(scanType, context)| >= |LiveScanIntro|;
    }
  }

  /** The text a code scan prompt analyses: what lies between the fixed intro and body. */
  function AnalysedCode(prompt: string): string
  {
    if |CodeScanIntro| + |CodeScanBody| <= |prompt| then prompt[|CodeScanIntro|..|prompt| - |CodeScanBody|] else ""
  }

  /** A code scan prompt carries the context verbatim, or the placeholder when the context is empty. */
  lemma CodeScanEmbedsContext(context: string)
    ensures AnalysedCode(UserPrompt("code_scan", context)) == if context != "" then context else NoCodeContext
  {
    var shown := if context != "" then context else NoCodeContext;
    var p := CodeScanIntro + shown + CodeScanBody;
    assert UserPrompt("code_scan", context) == p;
    assert p[|CodeScanIntro|..|p| - |CodeScanBody|] == shown;
  }

  /** Distinct non-empty contexts give distinct code scan prompts. */
  lemma CodeScanPromptInjective(c1: string, c2: string)
    requires c1 != "" && c2 != "" && c1 != c2
    ensures UserPrompt("code_scan", c1) != UserPrompt("code_scan", c2)
  {
    CodeScanEmbedsContext(c1);
    CodeScanEmbedsContext(c2);
  }

  /** The shape of the live scan prompt, for any intro and a body not starting with a space. */
  lemma OptionalTarget(intro: string, context: string, body: string)
    requires |body| > 0 && body[0] != ' '
    ensures StartsWith(intro + (if context != "" then " for: " + context else "") + body, intro + " for: " + context)
            <==> context != ""
  {
    var q := intro + " for: " + context;
    if context != "" {
      ConcatAssoc(intro, " for: ", context);
      PrefixOfConcat(q, body);
    } else {
      var p := intro + "" + body;
      assert p[|intro|] == body[0];
      assert q[|intro|] == ' ';
      DifferAt(p, q, |intro|);
    }
  }

  /** A live scan prompt names a target (" for: " + context) exactly when the context is not empty. */
  lemma LiveScanNamesTargetIffGiven(context: string)
    ensures StartsWith(UserPrompt("live_scan", context), LiveScanIntro + " for: " + context) <==> context != ""
  {
    assert LiveScanBody[0] == ':';
    OptionalTarget(LiveScanIntro, context, LiveScanBody);
  }

  /** A policy drift prompt does not depend on the context. */
  lemma PolicyDriftIgnoresContext(c1: string, c2: string)
    ensures UserPrompt("policy_drift", c1) == UserPrompt("policy_drift", c2) == PolicyDriftPrompt
  {
  }
}
