/** The language tables of the cdss service: five supported languages, six prompts
    per language, one medical-record template, and the lookups over them. A prompt is
    kept as literal text and named placeholders, so that keyword formatting is a
    substitution over tokens. */
module I18n {
  import opened Wrappers
  import opened Text

  /** A piece of a stored prompt: literal text (never holding a brace) or a named
      placeholder, written `{name}` in the stored text. */
  datatype Token = Lit(text: string) | Hole(name: string)
  type Template = seq<Token>

  /** A failed dictionary lookup, naming the missing key. */
  datatype LookupError = KeyError(key: string)

  const SupportedLanguages: seq<string> := ["en", "zh", "es", "fr", "th"]
  const DefaultLanguage: string := "zh"
  const PromptKeys: set<string> :=
    {"doctor_context", "patient_context", "mr_format", "mr_format_detail",
     "doctor_query_context", "patient_query_context"}

  const ZhMedicalRecordTemplate: string :=
    "\n##患者信息：##\n\n性别： 女\n年龄： 34岁\n就诊时间： 2024年1月15日 15:30\n科别： 皮肤科门诊（大寨）\n\n##主诉：##\n双侧面颊皮疹1年余，加重20余天。\n\n##现病史：##\n- 1年多前，双侧面颊及颈部出现褐色斑片，无明显自觉症状。\n- 3个月前，患者自行外购使用某淡斑产品后，局部皮肤出现烧灼感伴脱屑，但继续使用了3个月。\n- 20天前，上述皮损部位颜色较前加重，烧灼感及脱屑无明显好转。\n\n##既往史：##\n体健，自述肝肾功能正常。\n\n##体格检查：##\n双侧面颊及颈部可见大致对称分布、形状不规则、边界欠清的褐色斑片，基底皮肤轻微红斑。\n\n##辅助检查：##\n无\n\n##诊断：##\n- 黄褐斑；刺激性皮炎\n\n##处理：##\n###药物治疗：###\n\n- 加味道遥胶囊：每次3粒，每日两次，口服\n- 复方甘草酸苷片：每次2片，每日三次，口服\n- 维生素C片：每次1片，每日两次，口服\n- 丁酸氢化可的松乳膏（尤卓尔乳膏）：每次1支，每日一次，外用\n- 吡美莫司乳膏（爱宁达乳膏）：每次1支，每日一次，外用\n- 多磺酸粘多糖乳膏（喜辽妥乳膏）：每次1支，每日一次，外用\n\n###处理意见：###\n\n- 停用一切功效性护肤品\n- 考虑目前皮肤屏障受损，建议精简护肤\n- 注意防晒\n- 保持心情愉悦\n- 2周后复诊\n"

  const ZhDoctorContext: Template :=
    [Lit("您是一位中国医院的智能医疗助手。您使用中文交流，是肿瘤学专家。")]

  const ZhPatientContext: Template :=
    [Lit("您是一位中国医院的智能医疗助手。您使用通俗易懂的中文与患者交流。")]

  const ZhMrFormat: Template :=
    [Lit("请将以下内容转换为正式的病历记录：")]

  const ZhMrFormatDetail: Template :=
    [Lit("请包含以下项目：\n主诉,现病史,既往史,过敏史,家族史,体格检查,辅助检查,诊断,处置意见,注意事项,中医辩证,中药处方。\n如果某项无信息，请填写\"无\"。\n请不要遗漏任何检查数据。\n请不要提及任何个人身份信息。")]

  const ZhDoctorQueryContext: Template :=
    [Lit("这个问题是针对具有以下病历的患者："),
     Hole("medical_records"),
     Lit("\n这里是一些可能与问题相关的检索文档："),
     Hole("retrieved_info"),
     Lit("。\n请尝试参考具体文档名称并突出显示来回答问题。\n如果文档不相关，请不要提及。\n如果给定文档无法回答患者的问题，您可以寻求文档范围之外的答案。\n由于答案是针对专家医生的，因此请保持准确、专业和循证。\n治疗计划或建议应该是个性化的。计划中推荐的程序或药物应该参考患者的具体情况。\n不要用医生应该知道的一般方式来谈论。不要用针对一般人群和群体的语气回答，而只针对这个特定的患者。\n即使计划的标题也应该是具体的。不要使用系统性、综合性等一般性术语。")]

  const ZhPatientQueryContext: Template :=
    [Lit("这个问题是针对具有以下病历的患者："),
     Hole("medical_records"),
     Lit("\n答案是针对患者的，所以请使用可以被可能没有广泛医学知识的人理解的词语。\n请使用友善和鼓励的语气。\n请尽量简洁地用不超过20句话回答，并突出显示一两个要点。\n如有必要，请先询问患者的具体情况。")]

  const EnDoctorContext: Template :=
    [Lit("You are an intelligent medical assistant in a hospital. You communicate in English and are an expert in oncology.")]

  const EnPatientContext: Template :=
    [Lit("You are an intelligent medical assistant in a hospital. Please communicate in simple English that patients can understand.")]

  const EnMrFormat: Template :=
    [Lit("Please convert the following content into a formal medical record:")]

  const EnMrFormatDetail: Template :=
    [Lit("Please include the following items:\nChief Complaint, Present Illness History, Past Medical History, Allergies, Family History, Physical Examination, Auxiliary Examination, Diagnosis, Treatment Plan, Precautions, TCM Diagnosis, TCM Prescription.\nIf there is no information for an item, please write \"None\".\nPlease do not miss any examination data.\nPlease do not mention any personal identity information.")]

  const EnDoctorQueryContext: Template :=
    [Lit("This question is for a patient with the following medical records: "),
     Hole("medical_records"),
     Lit("\nHere are some retrieved documents that may be relevant to the question: "),
     Hole("retrieved_info"),
     Lit(".\nPlease try to answer the question with reference to specific document names and highlight them.\nIf the documents are irrelevant, do not mention them.\nYou may seek answers outside the scope of given documents if they cannot answer the patient's questions.\nSince the answer is for an expert doctor, please keep it precise, professional, and evidence-based.\nTreatment plans or advice should be personalized. The procedures or medicines recommended should refer to the patient's specific conditions.\nDo not talk in general terms that a doctor should know. Address this specific patient, not general populations or groups.\nEven plan titles should be specific. Avoid general terms like systematic, comprehensive, etc.")]

  const EnPatientQueryContext: Template :=
    [Lit("This question is for a patient with the following medical records: "),
     Hole("medical_records"),
     Lit("\nThe answer should use words understandable to someone without extensive medical knowledge.\nPlease use a kind and encouraging tone.\nTry to answer concisely in less than 20 sentences with one or two key points highlighted.\nIf necessary, please first ask questions about the patient's specific conditions.")]

  const EsDoctorContext: Template :=
    [Lit("Eres un asistente médico inteligente en un hospital. Te comunicas en español y eres experto en oncología.")]

  const EsPatientContext: Template :=
    [Lit("Eres un asistente médico inteligente en un hospital. Por favor, comunícate en español simple que los pacientes puedan entender.")]

  const EsMrFormat: Template :=
    [Lit("Por favor, convierte el siguiente contenido en un registro médico formal:")]

  const EsMrFormatDetail: Template :=
    [Lit("Por favor, incluye los siguientes elementos:\nMotivo de Consulta, Historia de la Enfermedad Actual, Antecedentes Médicos, Alergias, Historia Familiar, Examen Físico, Exámenes Auxiliares, Diagnóstico, Plan de Tratamiento, Precauciones, Diagnóstico MTC, Prescripción MTC.\nSi no hay información para algún elemento, escribe \"Ninguno\".\nNo omitas ningún dato de exámenes.\nNo menciones información de identidad personal.")]

  const EsDoctorQueryContext: Template :=
    [Lit("Esta pregunta es para un paciente con los siguientes registros médicos: "),
     Hole("medical_records"),
     Lit("\nAquí hay algunos documentos recuperados que pueden ser relevantes para la pregunta: "),
     Hole("retrieved_info"),
     Lit(".\nPor favor, intenta responder la pregunta haciendo referencia a nombres específicos de documentos y resáltelos.\nSi los documentos no son relevantes, no los menciones.\nPuedes buscar respuestas fuera del alcance de los documentos dados si no pueden responder las preguntas del paciente.\nComo la respuesta es para un médico experto, mantenla precisa, profesional y basada en evidencia.\nLos planes de tratamiento o consejos deben ser personalizados. Los procedimientos o medicamentos recomendados deben referirse a las condiciones específicas del paciente.\nNo hables en términos generales que un médico debería saber. Dirígete a este paciente específico, no a poblaciones o grupos generales.\nIncluso los títulos del plan deben ser específicos. Evita términos generales como sistemático, integral, etc.")]

  const EsPatientQueryContext: Template :=
    [Lit("Esta pregunta es para un paciente con los siguientes registros médicos: "),
     Hole("medical_records"),
     Lit("\nLa respuesta debe usar palabras comprensibles para alguien sin conocimientos médicos extensos.\nPor favor, usa un tono amable y alentador.\nIntenta responder de manera concisa en menos de 20 oraciones con uno o dos puntos clave resaltados.\nSi es necesario, primero haz preguntas sobre las condiciones específicas del paciente.")]

  const FrDoctorContext: Template :=
    [Lit("Vous êtes un assistant médical intelligent dans un hôpital. Vous communiquez en français et êtes expert en oncologie.")]

  const FrPatientContext: Template :=
    [Lit("Vous êtes un assistant médical intelligent dans un hôpital. Veuillez communiquer en français simple que les patients peuvent comprendre.")]

  const FrMrFormat: Template :=
    [Lit("Veuillez convertir le contenu suivant en un dossier médical formel :")]

  const FrMrFormatDetail: Template :=
    [Lit("Veuillez inclure les éléments suivants :\nMotif de Consultation, Histoire de la Maladie Actuelle, Antécédents Médicaux, Allergies, Histoire Familiale, Examen Physique, Examens Complémentaires, Diagnostic, Plan de Traitement, Précautions, Diagnostic MTC, Prescription MTC.\nS'il n'y a pas d'information pour un élément, écrivez \"Aucun\".\nNe manquez aucune donnée d'examen.\nNe mentionnez aucune information d'identité personnelle.")]

  const FrDoctorQueryContext: Template :=
    [Lit("Cette question concerne un patient avec les dossiers médicaux suivants : "),
     Hole("medical_records"),
     Lit("\nVoici quelques documents récupérés qui peuvent être pertinents pour la question : "),
     Hole("retrieved_info"),
     Lit(".\nVeuillez essayer de répondre à la question en faisant référence aux noms spécifiques des documents et les mettre en évidence.\nSi les documents ne sont pas pertinents, ne les mentionnez pas.\nVous pouvez chercher des réponses en dehors de la portée des documents donnés s'ils ne peuvent pas répondre aux questions du patient.\nComme la réponse est destinée à un médecin expert, gardez-la précise, professionnelle et basée sur des preuves.\nLes plans de traitement ou les conseils doivent être personnalisés. Les procédures ou médicaments recommandés doivent faire référence aux conditions spécifiques du patient.\nNe parlez pas en termes généraux qu'un médecin devrait connaître. Adressez-vous à ce patient spécifique, pas aux populations ou groupes généraux.\nMême les titres du plan doivent être spécifiques. Évitez les termes généraux comme systématique, complet, etc.")]

  const FrPatientQueryContext: Template :=
    [Lit("Cette question concerne un patient avec les dossiers médicaux suivants : "),
     Hole("medical_records"),
     Lit("\nLa réponse doit utiliser des mots compréhensibles pour quelqu'un sans connaissances médicales approfondies.\nVeuillez utiliser un ton bienveillant et encourageant.\nEssayez de répondre de manière concise en moins de 20 phrases avec un ou deux points clés mis en évidence.\nSi nécessaire, posez d'abord des questions sur les conditions spécifiques du patient.")]

  const ThDoctorContext: Template :=
    [Lit("คุณเป็นผู้ช่วยแพทย์อัจฉริยะในโรงพยาบาล คุณสื่อสารเป็นภาษาไทยและเป็นผู้เชี่ยวชาญด้านมะเร็งวิทยา")]

  const ThPatientContext: Template :=
    [Lit("คุณเป็นผู้ช่วยแพทย์อัจฉริยะในโรงพยาบาล โปรดสื่อสารเป็นภาษาไทยที่เข้าใจง่ายสำหรับผู้ป่วย")]

  const ThMrFormat: Template :=
    [Lit("กรุณาแปลงเนื้อหาต่อไปนี้เป็นบันทึกทางการแพทย์อย่างเป็นทางการ:")]

  const ThMrFormatDetail: Template :=
    [Lit("กรุณาระบุรายการต่อไปนี้:\nอาการสำคัญ, ประวัติการเจ็บป่วยปัจจุบัน, ประวัติการรักษา, ประวัติการแพ้, ประวัติครอบครัว, การตรวจร่างกาย, การตรวจพิเศษ, การวินิจฉัย, แผนการรักษา, ข้อควรระวัง, การวินิจฉัยแพทย์แผนจีน, การสั่งยาแผนจีน\nหากไม่มีข้อมูลสำหรับรายการใด ให้เขียนว่า \"ไม่มี\"\nอย่าละเว้นข้อมูลการตรวจใดๆ\nอย่าระบุข้อมูลส่วนบุคคลใดๆ")]

  const ThDoctorQueryContext: Template :=
    [Lit("คำถามนี้สำหรับผู้ป่วยที่มีประวัติการรักษาดังต่อไปนี้: "),
     Hole("medical_records"),
     Lit("\nนี่คือเอกสารที่อาจเกี่ยวข้องกับคำถาม: "),
     Hole("retrieved_info"),
     Lit("\nกรุณาพยายามตอบคำถามโดยอ้างอิงถึงชื่อเอกสารเฉพาะและเน้นย้ำ\nหากเอกสารไม่เกี่ยวข้อง อย่าอ้างถึง\nคุณสามารถหาคำตอบนอกเหนือจากเอกสารที่ให้มาได้หากไม่สามารถตอบคำถามของผู้ป่วยได้\nเนื่องจากคำตอบนี้สำหรับแพทย์ผู้เชี่ยวชาญ กรุณารักษาความแม่นยำ ความเป็นมืออาชีพ และอิงหลักฐาน\nแผนการรักษาหรือคำแนะนำควรเป็นส่วนบุคคล ขั้นตอนหรือยาที่แนะนำควรอ้างอิงถึงสภาวะเฉพาะของผู้ป่วย\nอย่าพูดในแง่ทั่วไปที่แพทย์ควรรู้ พูดถึงผู้ป่วยรายนี้โดยเฉพาะ ไม่ใช่ประชากรหรือกลุ่มทั่วไป\nแม้แต่ชื่อแผนก็ควรเฉพาะเจาะจง หลีกเลี่ยงคำทั่วไปเช่น เป็นระบบ ครอบคลุม ฯลฯ")]

  const ThPatientQueryContext: Template :=
    [Lit("คำถามนี้สำหรับผู้ป่วยที่มีประวัติการรักษาดังต่อไปนี้: "),
     Hole("medical_records"),
     Lit("\nคำตอบควรใช้คำที่เข้าใจได้สำหรับผู้ที่ไม่มีความรู้ทางการแพทย์มากนัก\nกรุณาใช้น้ำเสียงที่เป็นมิตรและให้กำลังใจ\nพยายามตอบอย่างกระชับในไม่เกิน 20 ประโยคโดยเน้นประเด็นสำคัญ 1-2 ข้อ\nหากจำเป็น กรุณาถามคำถามเกี่ยวกับสภาวะเฉพาะของผู้ป่วยก่อน")]

  const LlmPrompts: map<string, map<string, Template>> := map[
    "zh" := map[
      "doctor_context" := ZhDoctorContext,
      "patient_context" := ZhPatientContext,
      "mr_format" := ZhMrFormat,
      "mr_format_detail" := ZhMrFormatDetail,
      "doctor_query_context" := ZhDoctorQueryContext,
      "patient_query_context" := ZhPatientQueryContext],
    "en" := map[
      "doctor_context" := EnDoctorContext,
      "patient_context" := EnPatientContext,
      "mr_format" := EnMrFormat,
      "mr_format_detail" := EnMrFormatDetail,
      "doctor_query_context" := EnDoctorQueryContext,
      "patient_query_context" := EnPatientQueryContext],
    "es" := map[
      "doctor_context" := EsDoctorContext,
      "patient_context" := EsPatientContext,
      "mr_format" := EsMrFormat,
      "mr_format_detail" := EsMrFormatDetail,
      "doctor_query_context" := EsDoctorQueryContext,
      "patient_query_context" := EsPatientQueryContext],
    "fr" := map[
      "doctor_context" := FrDoctorContext,
      "patient_context" := FrPatientContext,
      "mr_format" := FrMrFormat,
      "mr_format_detail" := FrMrFormatDetail,
      "doctor_query_context" := FrDoctorQueryContext,
      "patient_query_context" := FrPatientQueryContext],
    "th" := map[
      "doctor_context" := ThDoctorContext,
      "patient_context" := ThPatientContext,
      "mr_format" := ThMrFormat,
      "mr_format_detail" := ThMrFormatDetail,
      "doctor_query_context" := ThDoctorQueryContext,
      "patient_query_context" := ThPatientQueryContext]
  ]

  /** Only the Chinese template exists. */
  const MedicalRecordTemplates: map<string, string> := map["zh" := ZhMedicalRecordTemplate]

  /** Every supported language has a table, and every table has the same six keys. */
  lemma PromptTableShape()
    ensures LlmPrompts.Keys == set l | l in SupportedLanguages
    ensures forall l :: l in LlmPrompts ==> LlmPrompts[l].Keys == PromptKeys
  {
  }

  /** The stored text of a template, each placeholder written `{name}`. */
  function Raw(t: Template): string {
    if t == [] then []
    else (match t[0] case Lit(s) => s case Hole(n) => "{" + n + "}") + Raw(t[1..])
  }

  /** Every placeholder of the template has a binding. */
  predicate Bound(t: Template, bindings: map<string, string>) {
    forall k :: 0 <= k < |t| && t[k].Hole? ==> t[k].name in bindings
  }

  /** Keyword formatting: each placeholder is replaced by its binding, and the first
      placeholder without one fails with its name. */
  function Format(t: Template, bindings: map<string, string>): (r: Result<string, LookupError>)
    ensures r.Ok? <==> Bound(t, bindings)
    ensures r.Err? ==> exists k :: 0 <= k < |t| && t[k].Hole? && t[k].name !in bindings
                                   && r.error == KeyError(t[k].name) && Bound(t[..k], bindings)
  {
    if t == [] then Ok([])
    else if t[0].Hole? && t[0].name !in bindings then
      assert Bound(t[..0], bindings);
      Err(KeyError(t[0].name))
    else
      var head := if t[0].Lit? then t[0].text else bindings[t[0].name];
      match Format(t[1..], bindings)
      case Ok(rest) => Ok(head + rest)
      case Err(e) =>
        assert forall j :: 0 <= j < |t| - 1 && Bound(t[1..][..j], bindings) ==> Bound(t[..j + 1], bindings);
        Err(e)
  }

  /** Formatting with every placeholder bound to its own `{name}` gives back the
      stored text. */
  lemma {:induction false} FormatPlaceholders(t: Template, bindings: map<string, string>)
    requires forall k :: 0 <= k < |t| && t[k].Hole? ==>
      t[k].name in bindings && bindings[t[k].name] == "{" + t[k].name + "}"
    ensures Format(t, bindings) == Ok(Raw(t))
  {
    if t != [] {
      FormatPlaceholders(t[1..], bindings);
    }
  }

  /** A formatted template holds the binding of each of its placeholders verbatim. */
  lemma {:induction false} FormatContains(t: Template, bindings: map<string, string>, i: nat)
    requires Bound(t, bindings) && i < |t| && t[i].Hole?
    ensures Contains(Format(t, bindings).value, bindings[t[i].name])
  {
    var head := if t[0].Lit? then t[0].text else bindings[t[0].name];
    var rest := Format(t[1..], bindings).value;
    if i == 0 {
      ContainsMiddle([], head, rest);
      assert [] + head + rest == head + rest;
    } else {
      FormatContains(t[1..], bindings, i - 1);
      ContainsPrepend(head, rest, bindings[t[i].name]);
    }
  }

  /** The stored prompt for a language and key: a language outside the supported ones
      is read as Chinese; a key outside the six fails. */
  function GetLanguageTemplate(language: string, key: string): (r: Result<Template, LookupError>)
    ensures r.Ok? <==> key in PromptKeys
    ensures r.Err? ==> r.error == KeyError(key)
  {
    PromptTableShape();
    var l := if language in SupportedLanguages then language else DefaultLanguage;
    if key in LlmPrompts[l] then Ok(LlmPrompts[l][key]) else Err(KeyError(key))
  }

  /** `get_language_prompt`: the stored text of that prompt. */
  function GetLanguagePrompt(language: string, key: string): (r: Result<string, LookupError>)
    ensures r.Ok? <==> key in PromptKeys
    ensures r.Err? ==> r.error == KeyError(key)
  {
    match GetLanguageTemplate(language, key)
    case Ok(t) => Ok(Raw(t))
    case Err(e) => Err(e)
  }

  /** An unsupported language gets exactly the Chinese prompt. */
  lemma LanguageFallback(language: string, key: string)
    requires language !in SupportedLanguages
    ensures GetLanguageTemplate(language, key) == GetLanguageTemplate(DefaultLanguage, key)
    ensures GetLanguagePrompt(language, key) == GetLanguagePrompt(DefaultLanguage, key)
  {
  }

  /** `get_error_message`: the key after a fixed prefix, whatever the language. */
  function GetErrorMessage(language: string, key: string): (r: string)
    ensures StartsWith(r, "Error: ") && r[7..] == key
  {
    "Error: " + key
  }

  /** `get_medical_record_template`: the Chinese template for every language, the
      supported ones included. */
  function GetMedicalRecordTemplate(language: string): (r: string)
    ensures r == ZhMedicalRecordTemplate
  {
    var l := if language in MedicalRecordTemplates then language else DefaultLanguage;
    MedicalRecordTemplates[l]
  }

  /** The query templates have their placeholders in fixed places: the records, then
      (for the doctor) the retrieved documents, each between literal text. */
  lemma QueryTemplateShape(l: string)
    requires l in LlmPrompts
    ensures QueryShapes(l)
  {
    PromptTableShape();
    if l == "zh" {
      QueryShapesAt("zh");
    } else if l == "en" {
      QueryShapesAt("en");
    } else if l == "es" {
      QueryShapesAt("es");
    } else if l == "fr" {
      QueryShapesAt("fr");
    } else {
      QueryShapesAt("th");
    }
  }

  /** The placeholders of the two query templates of a language. */
  predicate QueryShapes(l: string)
    requires l in LlmPrompts
  {
    PromptTableShape();
    var t, u := LlmPrompts[l]["doctor_query_context"], LlmPrompts[l]["patient_query_context"];
    && |t| == 5 && t[0].Lit? && t[2].Lit? && t[4].Lit?
    && t[1] == Hole("medical_records") && t[3] == Hole("retrieved_info")
    && |u| == 3 && u[0].Lit? && u[2].Lit? && u[1] == Hole("medical_records")
  }

  lemma QueryShapesAt(l: string)
    requires l in {"zh", "en", "es", "fr", "th"}
    ensures l in LlmPrompts && QueryShapes(l)
  {
  }

  /** A lookup with one of the six keys reads the table of the language, or of Chinese
      for an unsupported language. */
  lemma TemplateLookup(language: string, key: string)
    requires key in PromptKeys
    ensures var l := if language in SupportedLanguages then language else DefaultLanguage;
      l in LlmPrompts && GetLanguageTemplate(language, key) == Ok(LlmPrompts[l][key])
  {
    PromptTableShape();
  }

  /** Every stored prompt opens with non-empty literal text. */
  lemma PromptsStartLiteral(l: string, key: string)
    requires l in LlmPrompts && key in LlmPrompts[l]
    ensures StartsLiteral(l, key)
  {
    if l == "zh" {
      ZhStartsLiteral(key);
    } else if l == "en" {
      EnStartsLiteral(key);
    } else if l == "es" {
      EsStartsLiteral(key);
    } else if l == "fr" {
      FrStartsLiteral(key);
    } else {
      assert l == "th";
      ThStartsLiteral(key);
    }
  }

  /** The stored prompt opens with non-empty literal text. */
  predicate StartsLiteral(l: string, key: string)
    requires l in LlmPrompts && key in LlmPrompts[l]
  {
    var t := LlmPrompts[l][key];
    t != [] && t[0].Lit? && t[0].text != []
  }

  lemma ZhStartsLiteral(key: string)
    requires "zh" in LlmPrompts && key in LlmPrompts["zh"]
    ensures StartsLiteral("zh", key)
  {
  }

  lemma EnStartsLiteral(key: string)
    requires "en" in LlmPrompts && key in LlmPrompts["en"]
    ensures StartsLiteral("en", key)
  {
  }

  lemma EsStartsLiteral(key: string)
    requires "es" in LlmPrompts && key in LlmPrompts["es"]
    ensures StartsLiteral("es", key)
  {
  }

  lemma FrStartsLiteral(key: string)
    requires "fr" in LlmPrompts && key in LlmPrompts["fr"]
    ensures StartsLiteral("fr", key)
  {
  }

  lemma ThStartsLiteral(key: string)
    requires "th" in LlmPrompts && key in LlmPrompts["th"]
    ensures StartsLiteral("th", key)
  {
  }

  /** Hence every prompt a lookup returns is non-empty. */
  lemma PromptNonEmpty(language: string, key: string)
    requires key in PromptKeys
    ensures GetLanguagePrompt(language, key).Ok? && GetLanguagePrompt(language, key).value != []
  {
    TemplateLookup(language, key);
    var l := if language in SupportedLanguages then language else DefaultLanguage;
    PromptsStartLiteral(l, key);
    var t := LlmPrompts[l][key];
    assert Raw(t) == t[0].text + Raw(t[1..]);
  }

  /** The doctor's query template cannot be formatted with the records alone: its
      first missing placeholder is the retrieved documents. */
  lemma DoctorQueryNeedsRetrieved(l: string, records: string)
    requires l in LlmPrompts
    ensures Format(LlmPrompts[l]["doctor_query_context"], map["medical_records" := records])
         == Err(KeyError("retrieved_info"))
  {
    QueryTemplateShape(l);
    DoctorShapeNeedsRetrieved(LlmPrompts[l]["doctor_query_context"], records);
  }

  /** A template shaped like the doctor's query context fails on `retrieved_info`
      when only the records are bound. */
  lemma DoctorShapeNeedsRetrieved(t: Template, records: string)
    requires |t| == 5 && t[0].Lit? && t[2].Lit? && t[1] == Hole("medical_records") && t[3] == Hole("retrieved_info")
    ensures Format(t, map["medical_records" := records]) == Err(KeyError("retrieved_info"))
  {
    var bindings := map["medical_records" := records];
    assert Bound(t[..3], bindings) by {
      assert forall k :: 0 <= k < 3 ==> t[..3][k] == t[k];
    }
    FormatFirstMissing(t, bindings, 3);
  }

  /** Formatting fails with the name of the first placeholder that has no binding. */
  lemma {:induction false} FormatFirstMissing(t: Template, bindings: map<string, string>, k: nat)
    requires k < |t| && t[k].Hole? && t[k].name !in bindings && Bound(t[..k], bindings)
    ensures Format(t, bindings) == Err(KeyError(t[k].name))
    decreases k
  {
    if k > 0 {
      assert t[0] == t[..k][0];
      assert t[1..][k - 1] == t[k];
      var rest := t[1..][..k - 1];
      forall j | 0 <= j < k - 1 && rest[j].Hole?
        ensures rest[j].name in bindings
      {
        assert rest[j] == t[..k][j + 1];
      }
      FormatFirstMissing(t[1..], bindings, k - 1);
    }
  }

  /** The patient's query template formats with the records alone and holds them. */
  lemma PatientQueryFormats(l: string, records: string)
    requires l in LlmPrompts
    ensures var r := Format(LlmPrompts[l]["patient_query_context"], map["medical_records" := records]);
      r.Ok? && Contains(r.value, records)
  {
    QueryTemplateShape(l);
    PatientShapeFormats(LlmPrompts[l]["patient_query_context"], records);
  }

  /** A template shaped like the patient's query context formats with the records and
      holds them. */
  lemma PatientShapeFormats(t: Template, records: string)
    requires |t| == 3 && t[0].Lit? && t[2].Lit? && t[1] == Hole("medical_records")
    ensures var r := Format(t, map["medical_records" := records]);
      r.Ok? && Contains(r.value, records)
  {
    var bindings := map["medical_records" := records];
    assert Bound(t, bindings);
    FormatContains(t, bindings, 1);
  }

  /** A template shaped like the doctor's query context formats with both bindings and
      holds both. */
  lemma DoctorShapeFormats(t: Template, records: string, retrieved: string)
    requires |t| == 5 && t[0].Lit? && t[2].Lit? && t[4].Lit?
    requires t[1] == Hole("medical_records") && t[3] == Hole("retrieved_info")
    ensures var r := Format(t, map["medical_records" := records, "retrieved_info" := retrieved]);
      r.Ok? && Contains(r.value, records) && Contains(r.value, retrieved)
  {
    var bindings := map["medical_records" := records, "retrieved_info" := retrieved];
    assert Bound(t, bindings);
    FormatContains(t, bindings, 1);
    FormatContains(t, bindings, 3);
  }

  /** The lookup of the doctor's query template, for any language, followed by
      formatting with the records alone fails on the retrieved documents. */
  lemma DoctorQueryLookup(language: string, records: string)
    ensures var t := GetLanguageTemplate(language, "doctor_query_context");
      t.Ok? && Format(t.value, map["medical_records" := records]) == Err(KeyError("retrieved_info"))
  {
    TemplateLookup(language, "doctor_query_context");
    DoctorQueryNeedsRetrieved(if language in SupportedLanguages then language else DefaultLanguage, records);
  }

  /** The lookup of the patient's query template, for any language, formats with the
      records alone and holds them. */
  lemma PatientQueryLookup(language: string, records: string)
    ensures var t := GetLanguageTemplate(language, "patient_query_context");
      && t.Ok?
      && var r := Format(t.value, map["medical_records" := records]);
      r.Ok? && Contains(r.value, records)
  {
    TemplateLookup(language, "patient_query_context");
    PatientQueryFormats(if language in SupportedLanguages then language else DefaultLanguage, records);
  }

  /** `format_doctor_query_context`: no fallback, so an unsupported language fails on
      the table lookup; otherwise the records and the retrieved documents appear
      verbatim. */
  function FormatDoctorQueryContext(language: string, records: string, retrieved: string): (r: Result<string, LookupError>)
    ensures language in SupportedLanguages ==>
      r.Ok? && Contains(r.value, records) && Contains(r.value, retrieved)
    ensures language !in SupportedLanguages ==> r == Err(KeyError(language))
  {
    PromptTableShape();
    if language !in LlmPrompts then Err(KeyError(language))
    else
      var t := LlmPrompts[language]["doctor_query_context"];
      var bindings := map["medical_records" := records, "retrieved_info" := retrieved];
      QueryTemplateShape(language);
      DoctorShapeFormats(t, records, retrieved);
      Format(t, bindings)
  }

  /** `format_patient_query_context`: no fallback; the records appear verbatim. */
  function FormatPatientQueryContext(language: string, records: string): (r: Result<string, LookupError>)
    ensures language in SupportedLanguages ==> r.Ok? && Contains(r.value, records)
    ensures language !in SupportedLanguages ==> r == Err(KeyError(language))
  {
    PromptTableShape();
    if language !in LlmPrompts then Err(KeyError(language))
    else
      var t := LlmPrompts[language]["patient_query_context"];
      var bindings := map["medical_records" := records];
      QueryTemplateShape(language);
      PatientShapeFormats(t, records);
      Format(t, bindings)
  }
}
